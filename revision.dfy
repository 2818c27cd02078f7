/** Revision records: the three revision kinds and their discriminants,
    the note a revision shows (its earliest-posted note), the parent link
    and its inverse, the `children` list, the creation of a relationship
    revision, and an entity's master revision. */
module Revisions {
  import opened PyValue

  /** The kinds of revision, told apart by the `_type` column. */
  datatype RevisionType = BaseRevision | EntityRevision | RelationshipRevision

  /** The `polymorphic_identity` of each revision kind. */
  function TypeCode(t: RevisionType): (code: int)
    ensures 0 <= code <= 2
    ensures TypeOfCode(code) == Some(t)
  {
    match t
    case BaseRevision => 0
    case EntityRevision => 1
    case RelationshipRevision => 2
  }

  /** The kind the ORM loads for a stored `_type`. */
  function TypeOfCode(code: int): Option<RevisionType>
  {
    if code == 0 then Some(BaseRevision)
    else if code == 1 then Some(EntityRevision)
    else if code == 2 then Some(RelationshipRevision)
    else None
  }

  /** A row of `revision_note`; times are opaque, ordered instants. */
  datatype RevisionNote = RevisionNote(revisionNoteId: int, userId: int, revisionId: int, content: string,
                                       postedAt: int)

  /** A row of `revision`. */
  datatype Revision = Revision(revisionId: int, userId: int, createdAt: int, parentId: Option<int>,
                               revisionType: RevisionType)

  /** `n` is a note of revision `id` posted no later than any other. */
  predicate EarliestNoteOf(n: RevisionNote, id: int, notes: seq<RevisionNote>)
  {
    && n in notes && n.revisionId == id
    && forall m :: m in notes && m.revisionId == id ==> n.postedAt <= m.postedAt
  }

  /** The `note` column property: the content of the revision's earliest
      posted note, or None when it has none. Among notes posted at the same
      instant this picks the first listed; the query leaves that order to
      the database. */
  function Note(id: int, notes: seq<RevisionNote>): (r: Option<string>)
    ensures r.None? <==> forall m :: m in notes ==> m.revisionId != id
    ensures r.Some? ==> exists n :: EarliestNoteOf(n, id, notes) && n.content == r.value
  {
    var earliest := EarliestNote(id, notes);
    if earliest.Some? then Some(earliest.value.content) else None
  }

  /** The first of the earliest-posted notes of revision `id`. */
  function EarliestNote(id: int, notes: seq<RevisionNote>): (r: Option<RevisionNote>)
    ensures r.None? <==> forall m :: m in notes ==> m.revisionId != id
    ensures r.Some? ==> EarliestNoteOf(r.value, id, notes)
    decreases |notes|
  {
    if notes == [] then None
    else
      var rest := EarliestNote(id, notes[1..]);
      var first := notes[0];
      if first.revisionId != id then rest
      else if rest.Some? && rest.value.postedAt < first.postedAt then rest
      else Some(first)
  }

  /** The `children` backref: the ids of the revisions whose parent is `id`,
      in list order. */
  function Children(revisions: seq<Revision>, id: int): (r: seq<int>)
    ensures |r| <= |revisions|
  {
    if revisions == [] then []
    else
      var rest := Children(revisions[1..], id);
      if revisions[0].parentId == Some(id) then [revisions[0].revisionId] + rest else rest
  }

  /** `children` is the inverse of `parent`: a revision is a child of `id`
      exactly when its parent link points at `id`. */
  lemma {:induction false} ChildrenInverseOfParent(revisions: seq<Revision>, id: int, child: int)
    ensures child in Children(revisions, id) <==>
            exists r :: r in revisions && r.revisionId == child && r.parentId == Some(id)
  {
    if revisions != [] {
      ChildrenInverseOfParent(revisions[1..], id, child);
      if exists r :: r in revisions && r.revisionId == child && r.parentId == Some(id) {
        var r :| r in revisions && r.revisionId == child && r.parentId == Some(id);
        if r != revisions[0] {
          assert r in revisions[1..];
        }
      }
    }
  }

  /** A revision with no parent is nobody's child, and a child's parent is
      the revision it points at. */
  lemma {:induction false} RootIsNoChild(revisions: seq<Revision>, root: Revision)
    requires root in revisions && root.parentId.None?
    requires forall r :: r in revisions && r.revisionId == root.revisionId ==> r == root
    ensures forall id :: root.revisionId !in Children(revisions, id)
  {
    forall id | true
      ensures root.revisionId !in Children(revisions, id)
    {
      ChildrenInverseOfParent(revisions, id, root.revisionId);
    }
  }

  datatype Relationship = Relationship(relationshipId: int)

  datatype RelationshipData = RelationshipData(relationshipDataId: int, relationshipTypeId: int)

  /** A new relationship revision; a fresh object has no user and no
      relationship until they are assigned. */
  datatype RelationshipRevisionRecord = RelationshipRevisionRecord(
    userId: Option<int>, relationship: Option<Relationship>, relationshipData: Option<RelationshipData>,
    revisionType: RevisionType)

  /** `RelationshipRevision.create`: None when the relationship or its data
      is missing, otherwise a revision carrying exactly the given user,
      relationship and relationship data. */
  method CreateRelationshipRevision(userId: int, relationship: Option<Relationship>,
                                    relationshipData: Option<RelationshipData>)
    returns (r: Option<RelationshipRevisionRecord>)
    ensures r.None? <==> relationship.None? || relationshipData.None?
    ensures r.Some? ==> && r.value.userId == Some(userId)
                        && r.value.relationship == relationship
                        && r.value.relationshipData == relationshipData
                        && TypeCode(r.value.revisionType) == 2
  {
    if relationship.None? || relationshipData.None? {
      return None;
    }
    var revision := RelationshipRevisionRecord(None, None, None, RelationshipRevision);
    revision := revision.(userId := Some(userId));
    revision := revision.(relationship := relationship);
    revision := revision.(relationshipData := relationshipData);
    r := Some(revision);
  }

  /** An entity's revision history and its master revision. */
  class Entity {
    var revisions: seq<int>
    var masterRevisionId: Option<int>

    /** A new entity has no revisions and no master revision. */
    constructor ()
      ensures revisions == [] && masterRevisionId.None?
    {
      revisions := [];
      masterRevisionId := None;
    }

    /** Attaching a revision (`revision.entity = entity`) adds it to the
        `revisions` backref and leaves the master revision where it was. */
    method AddRevision(revisionId: int)
      modifies this
      ensures revisions == old(revisions) + [revisionId]
      ensures masterRevisionId == old(masterRevisionId)
    {
      revisions := revisions + [revisionId];
    }

    /** The master revision moves only by plain assignment. */
    method SetMasterRevision(revisionId: int)
      modifies this
      ensures masterRevisionId == Some(revisionId)
      ensures revisions == old(revisions)
    {
      masterRevisionId := Some(revisionId);
    }
  }
}
