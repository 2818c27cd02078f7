/** Properties of the snapshot model: what equality ignores, the no-op
    rule of `update`, which fields an update keeps, and the behaviour of
    the defective branches, each shown on the inputs that reach it. */
module EntityDataProperties {
  import opened PyValue
  import opened EntityDataModel

  // ---------------------------------------------------------------------
  // Equality
  // ---------------------------------------------------------------------

  /** Equality is reflexive and symmetric. */
  lemma {:induction false} SnapshotEqReflexiveSymmetric(a: EntityData, b: EntityData)
    requires a.KindOf() == b.KindOf()
    ensures SnapshotEq(a, a)
    ensures SnapshotEq(a, b) <==> SnapshotEq(b, a)
  {
  }

  /** Equality ignores identifiers and any aliases past the end of the
      shorter alias list. */
  lemma {:induction false} SnapshotEqIgnoresIdentifiersAndAliasTail(a: EntityData, extra: seq<Alias>,
                                                                    identifiers: seq<Identifier>)
    ensures var b := a.(common := a.common.(aliases := a.common.aliases + extra, identifiers := identifiers));
            SnapshotEq(a, b) && SnapshotEq(b, a)
  {
  }

  /** Because of the `zip`, equality is not transitive: a snapshot with no
      aliases equals snapshots with different aliases. */
  lemma {:induction false} SnapshotEqNotTransitive()
    ensures exists a: EntityData, b: EntityData, c: EntityData ::
              && a.KindOf() == b.KindOf() == c.KindOf()
              && SnapshotEq(a, b) && SnapshotEq(b, c) && !SnapshotEq(a, c)
  {
    var common := Common(None, None, [], None, []);
    var a := EntityData(common.(aliases := [Alias("x", "x", None, true)]), PublicationFields(Null), map[]);
    var b := EntityData(common, PublicationFields(Null), map[]);
    var c := EntityData(common.(aliases := [Alias("y", "y", None, true)]), PublicationFields(Null), map[]);
    assert a.common.aliases[0] != c.common.aliases[0];
    assert SnapshotEq(a, b) && SnapshotEq(b, c) && !SnapshotEq(a, c);
  }

  /** An edition's equality ignores its publication, creator credit and
      publisher. */
  lemma {:induction false} EditionEqIgnoresReferences(a: EntityData, publication: Option<EntityRef>,
                                                      credit: Option<CreatorCredit>, publisher: Option<EntityRef>)
    requires a.fields.EditionFields?
    ensures SnapshotEq(a, a.(fields := a.fields.(publication := publication, creatorCredit := credit,
                                                 publisher := publisher)))
  {
  }

  /** A work's equality compares its language lists whole. */
  lemma {:induction false} WorkEqComparesLanguages(a: EntityData, languages: seq<Language>)
    requires a.fields.WorkFields?
    ensures SnapshotEq(a, a.(fields := a.fields.(languages := languages))) <==> languages == a.fields.languages
  {
  }

  // ---------------------------------------------------------------------
  // copy and update
  // ---------------------------------------------------------------------

  /** The payload keys each kind's `update` reads for its own fields. */
  function KindKeys(k: Kind): set<string>
  {
    match k
    case Publication => {"publication_type"}
    case Creator => {"begin_date", "begin_date_precision", "end_date", "end_date_precision", "ended",
                     "country_id", "gender_id", "creator_type"}
    case Publisher => {"begin_date", "begin_date_precision", "end_date", "end_date_precision", "ended",
                       "country_id", "publisher_type"}
    case Edition => {"release_date", "release_date_precision", "country_id", "language", "edition_format",
                     "edition_status"}
    case Work => {"work_type", "languages"}
  }

  /** A field is overwritten only when its key is in the payload: with none
      of the kind's keys present, the candidate's fields are the copy's. */
  lemma {:induction false} AbsentKeysKeepCopiedFields(original: EntityData, data: Payload, session: Session,
                                                      hooks: Collaborators)
    requires forall k :: k in KindKeys(original.KindOf()) ==> k !in data
    ensures Candidate(original, data, session, hooks).Ok?
    ensures Candidate(original, data, session, hooks).value.fields == Copy(original).fields
  {
    match original.fields
    case PublicationFields(_) =>
      assert "publication_type" !in data;
    case CreatorFields(_, _, _, _, _, _, _, _) =>
      assert "creator_type" !in data && "begin_date" !in data && "begin_date_precision" !in data;
      assert "end_date" !in data && "end_date_precision" !in data && "ended" !in data;
      assert "country_id" !in data && "gender_id" !in data;
    case PublisherFields(_, _, _, _, _, _, _) =>
      assert "publisher_type" !in data && "begin_date" !in data && "begin_date_precision" !in data;
      assert "end_date" !in data && "end_date_precision" !in data && "ended" !in data && "country_id" !in data;
    case EditionFields(_, _, _, _, _, _, _, _, _) =>
      assert "edition_format" !in data && "edition_status" !in data && "language" !in data;
      assert "release_date" !in data && "release_date_precision" !in data && "country_id" !in data;
    case WorkFields(_, _) =>
      assert "work_type" !in data && "languages" !in data;
  }

  /** The keys an `update` copies straight from the payload:
      `if key in data: field = data[key]`. */
  function FlatKeys(k: Kind): set<string>
  {
    match k
    case Creator => {"begin_date", "begin_date_precision", "end_date", "end_date_precision", "ended",
                     "country_id", "gender_id"}
    case Publisher => {"begin_date", "begin_date_precision", "end_date", "end_date_precision", "ended",
                       "country_id"}
    case Edition => {"release_date", "release_date_precision", "country_id"}
    case _ => {}
  }

  /** The keys an `update` reads one level down, each with its inner key:
      `data[key][inner]`. */
  function NestedKeys(k: Kind): map<string, string>
  {
    match k
    case Publication => map["publication_type" := "publication_type_id"]
    case Creator => map["creator_type" := "creator_type_id"]
    case Publisher => map["publisher_type" := "publisher_type_id"]
    case Edition => map["language" := "language_id"]
    case Work => map["work_type" := "work_type_id"]
  }

  /** The edition keys whose test looks for `key` in `data[inner]` before
      reading `data[key][inner]`. */
  function MiskeyedKeys(k: Kind): map<string, string>
  {
    if k == Edition then map["edition_format" := "edition_format_id", "edition_status" := "edition_status_id"]
    else map[]
  }

  /** The field an `update` assigns from payload key `key`, if the kind has one. */
  function FieldAt(f: KindFields, key: string): (r: Option<Value>)
    ensures r.Some? <==> key in FlatKeys(f.KindOf()) || key in NestedKeys(f.KindOf()) || key in MiskeyedKeys(f.KindOf())
  {
    match f
    case PublicationFields(t) =>
      if key == "publication_type" then Some(t) else None
    case CreatorFields(bd, bdp, ed, edp, ended, country, gender, ctype) =>
      if key == "begin_date" then Some(bd)
      else if key == "begin_date_precision" then Some(bdp)
      else if key == "end_date" then Some(ed)
      else if key == "end_date_precision" then Some(edp)
      else if key == "ended" then Some(ended)
      else if key == "country_id" then Some(country)
      else if key == "gender_id" then Some(gender)
      else if key == "creator_type" then Some(ctype)
      else None
    case PublisherFields(bd, bdp, ed, edp, ended, country, ptype) =>
      if key == "begin_date" then Some(bd)
      else if key == "begin_date_precision" then Some(bdp)
      else if key == "end_date" then Some(ed)
      else if key == "end_date_precision" then Some(edp)
      else if key == "ended" then Some(ended)
      else if key == "country_id" then Some(country)
      else if key == "publisher_type" then Some(ptype)
      else None
    case EditionFields(_, _, rd, rdp, country, lang, fmt, status, _) =>
      if key == "release_date" then Some(rd)
      else if key == "release_date_precision" then Some(rdp)
      else if key == "country_id" then Some(country)
      else if key == "language" then Some(lang)
      else if key == "edition_format" then Some(fmt)
      else if key == "edition_status" then Some(status)
      else None
    case WorkFields(wt, _) =>
      if key == "work_type" then Some(wt) else None
  }

  /** The field at `key` of `updated` is what an update of `candidate` by
      `data` assigns there: an absent key keeps the copied value; a plain
      key present gives the payload's value; a nested key present with a
      dict gives its inner id when the dict has it and keeps the copy
      otherwise; a miskeyed edition key present needs `data[inner]`, and
      reads `data[key][inner]` when `key` is in that. */
  ghost predicate FollowsPayload(candidate: EntityData, data: Payload, updated: EntityData, key: string)
    requires FieldAt(candidate.fields, key).Some?
  {
    var kind := candidate.KindOf();
    var before := FieldAt(candidate.fields, key).value;
    var after := FieldAt(updated.fields, key);
    && after.Some?
    && (key !in data ==> after.value == before)
    && (key in data && key in FlatKeys(kind) ==> after.value == data[key])
    && (key in data && key in NestedKeys(kind) && data[key].Dict? ==>
          var inner := NestedKeys(kind)[key];
          after.value == if inner in data[key].entries then data[key].entries[inner] else before)
    && (key in data && key in MiskeyedKeys(kind) ==>
          var inner := MiskeyedKeys(kind)[key];
          && inner in data
          && (data[inner].Dict? && key !in data[inner].entries ==> after.value == before)
          && (data[inner].Dict? && key in data[inner].entries ==>
                data[key].Dict? && inner in data[key].entries && after.value == data[key].entries[inner]))
  }

  /** Each field of an update, one key at a time, whatever other keys the
      payload holds. */
  lemma {:induction false} UpdatedFieldFollowsPayload(candidate: EntityData, data: Payload, session: Session,
                                                      key: string)
    requires FieldsUpdated(candidate, data, session).Ok?
    requires FieldAt(candidate.fields, key).Some?
    ensures FollowsPayload(candidate, data, FieldsUpdated(candidate, data, session).value, key)
  {
    match candidate.fields
    case PublicationFields(_) =>
    case CreatorFields(_, _, _, _, _, _, _, _) => CreatorFieldFollowsPayload(candidate, data, session, key);
    case PublisherFields(_, _, _, _, _, _, _) => PublisherFieldFollowsPayload(candidate, data, session, key);
    case EditionFields(_, _, _, _, _, _, _, _, _) => EditionFieldFollowsPayload(candidate, data, session, key);
    case WorkFields(_, _) =>
  }

  lemma {:induction false} CreatorFieldFollowsPayload(candidate: EntityData, data: Payload, session: Session,
                                                      key: string)
    requires candidate.fields.CreatorFields?
    requires FieldsUpdated(candidate, data, session).Ok?
    requires FieldAt(candidate.fields, key).Some?
    ensures FollowsPayload(candidate, data, FieldsUpdated(candidate, data, session).value, key)
  {
    var f := candidate.fields;
    var typeId := OverwriteNested(data, "creator_type", "creator_type_id", f.creatorTypeId);
    var updated := FieldsUpdated(candidate, data, session).value;
    CreatorOverwriteFollowsPayload(candidate, data, updated, typeId.value, key);
  }

  lemma CreatorOverwriteFollowsPayload(candidate: EntityData, data: Payload, updated: EntityData, typeId: Value,
                                       key: string)
    requires candidate.fields.CreatorFields?
    requires updated.fields == CreatorOverwritten(candidate.fields, data, typeId)
    requires OverwriteNested(data, "creator_type", "creator_type_id", candidate.fields.creatorTypeId) == Ok(typeId)
    requires FieldAt(candidate.fields, key).Some?
    ensures FollowsPayload(candidate, data, updated, key)
  {
  }

  lemma {:induction false} PublisherFieldFollowsPayload(candidate: EntityData, data: Payload, session: Session,
                                                        key: string)
    requires candidate.fields.PublisherFields?
    requires FieldsUpdated(candidate, data, session).Ok?
    requires FieldAt(candidate.fields, key).Some?
    ensures FollowsPayload(candidate, data, FieldsUpdated(candidate, data, session).value, key)
  {
    var typeId := OverwriteNested(data, "publisher_type", "publisher_type_id", candidate.fields.publisherTypeId);
    PublisherOverwriteFollowsPayload(candidate, data, FieldsUpdated(candidate, data, session).value, typeId.value, key);
  }

  lemma PublisherOverwriteFollowsPayload(candidate: EntityData, data: Payload, updated: EntityData, typeId: Value,
                                         key: string)
    requires candidate.fields.PublisherFields?
    requires updated.fields == PublisherOverwritten(candidate.fields, data, typeId)
    requires OverwriteNested(data, "publisher_type", "publisher_type_id", candidate.fields.publisherTypeId) == Ok(typeId)
    requires FieldAt(candidate.fields, key).Some?
    ensures FollowsPayload(candidate, data, updated, key)
  {
  }

  /** What the miskeyed test assigns when it does not raise. */
  lemma MiskeyedFollows(data: Payload, outer: string, inner: string, current: Value)
    requires OverwriteMiskeyed(data, outer, inner, current).Ok?
    ensures var r := OverwriteMiskeyed(data, outer, inner, current).value;
            && (outer !in data ==> r == current)
            && (outer in data ==>
                  && inner in data
                  && (data[inner].Dict? && outer !in data[inner].entries ==> r == current)
                  && (data[inner].Dict? && outer in data[inner].entries ==>
                        data[outer].Dict? && inner in data[outer].entries && r == data[outer].entries[inner]))
  {
  }

  lemma EditionOverwriteFollowsPayload(candidate: EntityData, data: Payload, updated: EntityData,
                                       languageId: Value, formatId: Value, statusId: Value, key: string)
    requires candidate.fields.EditionFields?
    requires updated.fields == EditionOverwritten(candidate.fields, data, languageId, formatId, statusId)
    requires OverwriteNested(data, "language", "language_id", candidate.fields.languageId) == Ok(languageId)
    requires OverwriteMiskeyed(data, "edition_format", "edition_format_id", candidate.fields.editionFormatId) == Ok(formatId)
    requires OverwriteMiskeyed(data, "edition_status", "edition_status_id", candidate.fields.editionStatusId) == Ok(statusId)
    requires FieldAt(candidate.fields, key).Some?
    ensures FollowsPayload(candidate, data, updated, key)
  {
    if key == "edition_format" {
      MiskeyedFollows(data, key, "edition_format_id", candidate.fields.editionFormatId);
      EditionMiskeyedField(candidate, data, updated, key, formatId);
    } else if key == "edition_status" {
      MiskeyedFollows(data, key, "edition_status_id", candidate.fields.editionStatusId);
      EditionMiskeyedField(candidate, data, updated, key, statusId);
    } else if key == "language" {
      assert key !in FlatKeys(Edition) && key !in MiskeyedKeys(Edition);
    } else {
      assert key in FlatKeys(Edition) && key !in NestedKeys(Edition) && key !in MiskeyedKeys(Edition);
    }
  }

  /** The step from a miskeyed edition key's outcome to `FollowsPayload`. */
  lemma EditionMiskeyedField(candidate: EntityData, data: Payload, updated: EntityData, key: string, v: Value)
    requires candidate.fields.EditionFields? && updated.fields.EditionFields?
    requires key in MiskeyedKeys(Edition)
    requires FieldAt(candidate.fields, key).Some? && FieldAt(updated.fields, key) == Some(v)
    requires var inner := MiskeyedKeys(Edition)[key];
             var before := FieldAt(candidate.fields, key).value;
             && (key !in data ==> v == before)
             && (key in data ==>
                   && inner in data
                   && (data[inner].Dict? && key !in data[inner].entries ==> v == before)
                   && (data[inner].Dict? && key in data[inner].entries ==>
                         data[key].Dict? && inner in data[key].entries && v == data[key].entries[inner]))
    ensures FollowsPayload(candidate, data, updated, key)
  {
    assert key !in FlatKeys(Edition) && key !in NestedKeys(Edition);
  }

  lemma {:induction false} EditionFieldFollowsPayload(candidate: EntityData, data: Payload, session: Session,
                                                      key: string)
    requires candidate.fields.EditionFields?
    requires FieldsUpdated(candidate, data, session).Ok?
    requires FieldAt(candidate.fields, key).Some?
    ensures FollowsPayload(candidate, data, FieldsUpdated(candidate, data, session).value, key)
  {
    var f := candidate.fields;
    var languageId := OverwriteNested(data, "language", "language_id", f.languageId);
    var formatId := OverwriteMiskeyed(data, "edition_format", "edition_format_id", f.editionFormatId);
    var statusId := OverwriteMiskeyed(data, "edition_status", "edition_status_id", f.editionStatusId);
    EditionOverwriteFollowsPayload(candidate, data, FieldsUpdated(candidate, data, session).value,
                                   languageId.value, formatId.value, statusId.value, key);
  }

  /** An update's own fields succeed when every nested key present holds a
      dict, the miskeyed edition keys are absent and a work gets no
      language patch. */
  lemma {:induction false} FieldsUpdatedSucceeds(candidate: EntityData, data: Payload, session: Session)
    requires forall k :: k in NestedKeys(candidate.KindOf()) && k in data ==> data[k].Dict?
    requires forall k :: k in MiskeyedKeys(candidate.KindOf()) ==> k !in data
    requires candidate.fields.WorkFields? ==> "languages" !in data
    ensures FieldsUpdated(candidate, data, session).Ok?
  {
    match candidate.fields
    case PublicationFields(_) =>
      assert "publication_type" in NestedKeys(Publication);
    case CreatorFields(_, _, _, _, _, _, _, _) =>
      assert "creator_type" in NestedKeys(Creator);
    case PublisherFields(_, _, _, _, _, _, _) =>
      assert "publisher_type" in NestedKeys(Publisher);
    case EditionFields(_, _, _, _, _, _, _, _, _) =>
      assert "language" in NestedKeys(Edition);
      assert "edition_format" in MiskeyedKeys(Edition) && "edition_status" in MiskeyedKeys(Edition);
    case WorkFields(_, _) =>
      assert "work_type" in NestedKeys(Work);
  }

  /** A nested type key is taken from the payload when the nested dict
      carries it, so the publication type of an update that omits it
      survives, and one that carries it replaces it. */
  lemma {:induction false} PublicationTypeUpdate(original: EntityData, data: Payload, session: Session,
                                                 hooks: Collaborators)
    requires original.fields.PublicationFields?
    requires "publication_type" in data ==> data["publication_type"].Dict?
    ensures Candidate(original, data, session, hooks).Ok?
    ensures Candidate(original, data, session, hooks).value.fields.publicationTypeId ==
            if "publication_type" in data && "publication_type_id" in data["publication_type"].entries
            then data["publication_type"].entries["publication_type_id"]
            else original.fields.publicationTypeId
  {
  }

  /** The candidate never carries identifiers, so an update either returns
      the original or a snapshot without identifiers. */
  lemma {:induction false} CandidateHasNoIdentifiers(original: EntityData, data: Payload, session: Session,
                                                     hooks: Collaborators)
    ensures Candidate(original, data, session, hooks).Ok? ==>
              Candidate(original, data, session, hooks).value.common.identifiers == []
  {
  }

  /** The default alias of the candidate is the one `update_aliases`
      returns, or the copied one when it returns none; the aliases are
      the ones it returns. */
  lemma {:induction false} CandidateDefaultAlias(original: EntityData, data: Payload, session: Session,
                                                 hooks: Collaborators)
    ensures var updated := hooks.updateAliases(original.common.aliases, original.common.defaultAlias, data);
            var c := Candidate(original, data, session, hooks);
            c.Ok? ==> && c.value.common.aliases == updated.aliases
                      && c.value.common.defaultAlias ==
                         (if updated.defaultAlias.Some? then updated.defaultAlias else original.common.defaultAlias)
  {
  }

  /** Hooks that leave annotation, disambiguation and aliases as they are. */
  predicate InertHooks(hooks: Collaborators, original: Common, data: Payload)
  {
    && (original.annotation.Some? ==> hooks.updateAnnotation(original.annotation.value, data) == original.annotation)
    && (original.annotation.None? ==> hooks.createAnnotation(data) == None)
    && (original.disambiguation.Some? ==>
          hooks.updateDisambiguation(original.disambiguation.value, data) == original.disambiguation)
    && (original.disambiguation.None? ==> hooks.createDisambiguation(data) == None)
    && hooks.updateAliases(original.aliases, original.defaultAlias, data) == AliasResult(original.aliases, original.defaultAlias)
  }

  /** The no-op rule: an update that changes nothing returns a candidate
      equal to the original (so `update` hands back the original itself),
      for every kind whose copy is faithful. */
  lemma {:induction false} EmptyUpdateIsNoOp(original: EntityData, session: Session, hooks: Collaborators)
    requires !original.fields.CreatorFields?
    requires InertHooks(hooks, original.common, map[])
    ensures Candidate(original, map[], session, hooks).Ok?
    ensures SnapshotEq(Candidate(original, map[], session, hooks).value, original)
  {
    AbsentKeysKeepCopiedFields(original, map[], session, hooks);
  }

  /** A value is never the one-element tuple holding it. */
  lemma {:induction false} TupleOfItselfDiffers(x: Value)
    ensures Tuple([x]) != x
  {
    assert x in Tuple([x]).items;
  }

  /** The creator's copy wraps its date fields in tuples, so an update that
      does not resend `begin_date` never compares equal to the original:
      the no-op rule cannot fire for a creator. */
  lemma {:induction false} CreatorUpdateNeverNoOp(original: EntityData, data: Payload, session: Session,
                                                  hooks: Collaborators)
    requires original.fields.CreatorFields?
    requires "begin_date" !in data
    ensures var c := Candidate(original, data, session, hooks);
            c.Ok? ==> c.value.fields.beginDate == Tuple([original.fields.beginDate]) && !SnapshotEq(c.value, original)
  {
    TupleOfItselfDiffers(original.fields.beginDate);
  }

  /** The creator's copy does not carry the country: it lands on a stray
      attribute and `country_id` is unset. */
  lemma {:induction false} CreatorCopyDropsCountry(original: EntityData)
    requires original.fields.CreatorFields?
    ensures Copy(original).fields.countryId == Null
    ensures Copy(original).strays == map["county_id" := Tuple([original.fields.countryId])]
  {
  }

  // ---------------------------------------------------------------------
  // Editions
  // ---------------------------------------------------------------------

  /** An edition's `update` that carries `edition_format` (in the nested
      shape `create` reads) but no top-level `edition_format_id` raises a
      KeyError. */
  lemma {:induction false} EditionFormatUpdateRaises(original: EntityData, formatId: Value, session: Session,
                                                     hooks: Collaborators)
    requires original.fields.EditionFields?
    ensures var data := map["edition_format" := Dict(map["edition_format_id" := formatId])];
            Candidate(original, data, session, hooks) == Err(KeyError("edition_format_id"))
  {
  }

  /** The same defect for `edition_status`. */
  lemma {:induction false} EditionStatusUpdateRaises(original: EntityData, statusId: Value, session: Session,
                                                     hooks: Collaborators)
    requires original.fields.EditionFields?
    ensures var data := map["edition_status" := Dict(map["edition_status_id" := statusId])];
            Candidate(original, data, session, hooks) == Err(KeyError("edition_status_id"))
  {
  }

  /** An edition's candidate has lost its publication, creator credit and
      publisher; since equality ignores them, the update returns either the
      original or a snapshot without them. */
  lemma {:induction false} EditionCandidateLosesReferences(original: EntityData, data: Payload, session: Session,
                                                           hooks: Collaborators)
    requires original.fields.EditionFields?
    ensures var c := Candidate(original, data, session, hooks);
            c.Ok? ==> c.value.fields.publication.None? && c.value.fields.creatorCredit.None? &&
                      c.value.fields.publisher.None?
  {
  }

  /** `EditionData.create` returns None exactly when the base part succeeds
      and the payload names no publication. */
  lemma {:induction false} EditionCreateNone(data: Payload, session: Session, hooks: Collaborators)
    ensures Created(Edition, data, session, hooks) == Ok(None) <==>
            CommonCreated(data, hooks).Ok? && Get(data, "publication_gid", Null) == Null
  {
  }

  /** With a publication, an edition payload without `creator_credit`
      raises when the credit is built from None. */
  lemma {:induction false} EditionCreateNeedsCredit(data: Payload, session: Session, hooks: Collaborators)
    requires CommonCreated(data, hooks).Ok?
    requires Get(data, "publication_gid", Null) != Null
    requires "creator_credit" !in data
    ensures Created(Edition, data, session, hooks) == Err(AttributeError("get"))
  {
  }

  /** With a publication and a publisher, an edition's `create` raises
      from the lookup that is given no key. */
  lemma {:induction false} EditionCreateWithPublisherRaises(data: Payload, session: Session, hooks: Collaborators)
    requires CommonCreated(data, hooks).Ok?
    requires Get(data, "publication_gid", Null) != Null
    requires CreditCreated(Get(data, "creator_credit", Null), session).Ok?
    requires Get(data, "language", Dict(map[])).Dict? && Get(data, "edition_format", Dict(map[])).Dict?
    requires Get(data, "edition_status", Dict(map[])).Dict?
    requires Get(data, "publisher_gid", Null) != Null
    ensures Created(Edition, data, session, hooks).Err?
    ensures Created(Edition, data, session, hooks).error.TypeError?
  {
  }

  // ---------------------------------------------------------------------
  // Identifiers, credits and aliases built by create
  // ---------------------------------------------------------------------

  /** `create` builds exactly one identifier per payload entry, in order,
      with the type id from the nested `identifier_type` dict. */
  lemma {:induction false} CreatedIdentifiers(data: Payload, hooks: Collaborators, entries: seq<Value>)
    requires Get(data, "identifiers", List([])) == List(entries)
    requires CommonCreated(data, hooks).Ok?
    ensures var ids := CommonCreated(data, hooks).value.identifiers;
            && |ids| == |entries|
            && forall i :: 0 <= i < |entries| ==>
                 && entries[i].Dict?
                 && ids[i].value == Get(entries[i].entries, "value", Null)
                 && ids[i].identifierTypeId ==
                    GetOn(Get(entries[i].entries, "identifier_type", Dict(map[])), "identifier_type_id", Null).value
  {
    var ids := CommonCreated(data, hooks).value.identifiers;
    assert MapResult(entries, IdentifierCreate) == Ok(ids);
    forall i | 0 <= i < |entries|
      ensures entries[i].Dict? && ids[i].value == Get(entries[i].entries, "value", Null)
    {
      assert IdentifierCreate(entries[i]) == Ok(ids[i]);
    }
  }

  /** `CreatorCredit.create` appends one name per entry, in order, each
      with the creator its `creator_gid` names, and its begin phrase
      defaults to the empty string. */
  lemma {:induction false} CreditNamesOnePerEntry(data: Payload, session: Session, entries: seq<Value>)
    requires Get(data, "names", List([])) == List(entries)
    requires CreditCreated(Dict(data), session).Ok?
    ensures var credit := CreditCreated(Dict(data), session).value;
            && credit.beginPhrase == Get(data, "begin_phrase", Str(""))
            && |credit.names| == |entries|
            && forall i :: 0 <= i < |entries| ==>
                 entries[i].Dict? && credit.names[i].creator == Lookup(session.creators, Get(entries[i].entries, "creator_gid", Null))
  {
    var credit := CreditCreated(Dict(data), session).value;
    assert MapResult(entries, (e: Value) => CreditNameCreate(e, session)) == Ok(credit.names);
    forall i | 0 <= i < |entries|
      ensures entries[i].Dict? && credit.names[i].creator == Lookup(session.creators, Get(entries[i].entries, "creator_gid", Null))
    {
      assert CreditNameCreate(entries[i], session) == Ok(credit.names[i]);
    }
  }

  /** The single alias of the alias tests. */
  const TestAlias := Alias("test", "test_sort", Some(1), true)

  /** The payload of the alias tests. */
  function TestAliasEntry(withName: bool): Value
  {
    var entry := map["sort_name" := Str("test_sort"), "language_id" := Int(1), "primary" := Bool(true)];
    Dict(if withName then entry["name" := Str("test")] else entry)
  }

  /** What the alias tests require of `create_aliases`: one good alias
      becomes the only alias and the default; no alias, or one without a
      name, gives no alias and no default. */
  predicate MeetsAliasTests(hooks: Collaborators)
  {
    && hooks.createAliases(map["aliases" := List([TestAliasEntry(true)])]) == AliasResult([TestAlias], Some(TestAlias))
    && hooks.createAliases(map["aliases" := List([])]) == AliasResult([], None)
    && hooks.createAliases(map["aliases" := List([TestAliasEntry(false)])]) == AliasResult([], None)
  }

  /** `create` takes aliases and default from `create_aliases`: with helpers
      that meet the alias tests, a payload with one good alias creates a
      snapshot whose only alias is its default, and one whose alias lacks a
      name creates a snapshot with neither. */
  lemma {:induction false} CreatedAliasesFollowTests(kind: Kind, session: Session, hooks: Collaborators)
    requires kind != Edition
    requires MeetsAliasTests(hooks)
    ensures var good := Created(kind, map["aliases" := List([TestAliasEntry(true)])], session, hooks);
            good.Ok? && good.value.Some? &&
            good.value.value.common.aliases == [TestAlias] && good.value.value.common.defaultAlias == Some(TestAlias)
    ensures var bad := Created(kind, map["aliases" := List([TestAliasEntry(false)])], session, hooks);
            bad.Ok? && bad.value.Some? &&
            bad.value.value.common.aliases == [] && bad.value.value.common.defaultAlias == None
  {
    var good := map["aliases" := List([TestAliasEntry(true)])];
    var bad := map["aliases" := List([TestAliasEntry(false)])];
    assert Get(good, "identifiers", List([])) == List([]);
    assert Get(bad, "identifiers", List([])) == List([]);
  }

  // ---------------------------------------------------------------------
  // Works
  // ---------------------------------------------------------------------

  /** The languages found for `ids` are exactly the session's languages for
      the ids it knows. */
  lemma {:induction false} FoundLanguagesMembers(ids: seq<Value>, session: Session, l: Language)
    ensures l in FoundLanguages(ids, session) <==>
            exists i :: 0 <= i < |ids| && ids[i] in session.languages && session.languages[ids[i]] == l
  {
    if ids != [] {
      var front := ids[..|ids| - 1];
      FoundLanguagesMembers(front, session, l);
      if l in FoundLanguages(front, session) {
        var i :| 0 <= i < |front| && front[i] in session.languages && session.languages[front[i]] == l;
        assert ids[i] == front[i];
      }
      if exists i :: 0 <= i < |ids| && ids[i] in session.languages && session.languages[ids[i]] == l {
        var i :| 0 <= i < |ids| && ids[i] in session.languages && session.languages[ids[i]] == l;
        if i < |ids| - 1 {
          assert front[i] == ids[i];
        }
      }
    }
  }

  /** `[new for old, new in pairs if old is None]` holds exactly the new
      sides of the pairs whose old side is None. */
  lemma {:induction false} AddedIdsMembers(pairs: seq<(Value, Value)>, v: Value)
    ensures v in AddedIds(pairs) <==> exists i :: 0 <= i < |pairs| && pairs[i].0 == Null && pairs[i].1 == v
  {
    if pairs != [] {
      var front := pairs[..|pairs| - 1];
      AddedIdsMembers(front, v);
      if v in AddedIds(front) {
        var i :| 0 <= i < |front| && front[i].0 == Null && front[i].1 == v;
        assert pairs[i] == front[i];
      }
      if exists i :: 0 <= i < |pairs| && pairs[i].0 == Null && pairs[i].1 == v {
        var i :| 0 <= i < |pairs| && pairs[i].0 == Null && pairs[i].1 == v;
        if i < |pairs| - 1 {
          assert front[i] == pairs[i];
        }
      }
    }
  }

  /** On a work without languages, a language patch leaves the languages
      found for the added ids. */
  lemma WorkPatchOnEmptyLanguages(original: EntityData, pairs: seq<Value>, session: Session, hooks: Collaborators)
    requires original.fields.WorkFields? && original.fields.languages == []
    requires forall i :: 0 <= i < |pairs| ==> pairs[i].List? && |pairs[i].items| == 2
    ensures MapResult(pairs, Unpack2).Ok?
    ensures var c := Candidate(original, map["languages" := List(pairs)], session, hooks);
            c.Ok? && c.value.fields.languages == FoundLanguages(AddedIds(MapResult(pairs, Unpack2).value), session)
  {
    assert MapResult(pairs, Unpack2).Ok?;
  }

  /** The languages found for the added ids of well-formed pairs are those
      of the pairs whose old side is None. */
  lemma {:induction false} AddedLanguagesMembers(pairs: seq<Value>, ps: seq<(Value, Value)>, session: Session,
                                                 l: Language)
    requires forall i :: 0 <= i < |pairs| ==> pairs[i].List? && |pairs[i].items| == 2
    requires MapResult(pairs, Unpack2) == Ok(ps)
    ensures l in FoundLanguages(AddedIds(ps), session) <==>
            exists i :: 0 <= i < |pairs| && pairs[i].items[0] == Null && pairs[i].items[1] in session.languages &&
                        session.languages[pairs[i].items[1]] == l
  {
    var added := AddedIds(ps);
    FoundLanguagesMembers(added, session, l);
    if l in FoundLanguages(added, session) {
      var j :| 0 <= j < |added| && added[j] in session.languages && session.languages[added[j]] == l;
      AddedIdsMembers(ps, added[j]);
      var i :| 0 <= i < |ps| && ps[i].0 == Null && ps[i].1 == added[j];
      assert Unpack2(pairs[i]) == Ok(ps[i]);
    }
    if exists i :: 0 <= i < |pairs| && pairs[i].items[0] == Null && pairs[i].items[1] in session.languages &&
                   session.languages[pairs[i].items[1]] == l {
      var i :| 0 <= i < |pairs| && pairs[i].items[0] == Null && pairs[i].items[1] in session.languages &&
               session.languages[pairs[i].items[1]] == l;
      assert Unpack2(pairs[i]) == Ok(ps[i]);
      AddedIdsMembers(ps, ps[i].1);
      var j :| 0 <= j < |added| && added[j] == ps[i].1;
      assert added[j] in session.languages && session.languages[added[j]] == l;
    }
  }

  /** A language patch applied to a work without languages adds the
      languages the session finds for the pairs whose old side is None;
      pairs with both sides set add nothing. */
  lemma {:induction false} WorkLanguagePatchOnEmpty(original: EntityData, pairs: seq<Value>, session: Session,
                                                    hooks: Collaborators, l: Language)
    requires original.fields.WorkFields? && original.fields.languages == []
    requires forall i :: 0 <= i < |pairs| ==> pairs[i].List? && |pairs[i].items| == 2
    ensures var c := Candidate(original, map["languages" := List(pairs)], session, hooks);
            && c.Ok?
            && (l in c.value.fields.languages <==>
                exists i :: 0 <= i < |pairs| && pairs[i].items[0] == Null && pairs[i].items[1] in session.languages &&
                            session.languages[pairs[i].items[1]] == l)
  {
    WorkPatchOnEmptyLanguages(original, pairs, session, hooks);
    AddedLanguagesMembers(pairs, MapResult(pairs, Unpack2).value, session, l);
  }

  /** Any well-formed language patch applied to a work that already has
      languages raises, because a language row has no `language_id`. */
  lemma {:induction false} WorkLanguagePatchOnNonEmptyRaises(original: EntityData, pairs: seq<Value>,
                                                             session: Session, hooks: Collaborators)
    requires original.fields.WorkFields? && original.fields.languages != []
    requires forall i :: 0 <= i < |pairs| ==> pairs[i].List? && |pairs[i].items| == 2
    ensures Candidate(original, map["languages" := List(pairs)], session, hooks) == Err(AttributeError("language_id"))
  {
    assert MapResult(pairs, Unpack2).Ok?;
  }
}
