/** Entity snapshots ("entity data"): the five kinds, their structural
    equality, and the `create`, `update` and `copy` operations that build
    a snapshot from a request payload.

    A snapshot is a value. `update` never changes the snapshot it is
    called on: it copies it, overwrites the fields whose keys the payload
    carries, and returns the original when the copy compares equal to it.
    The session's `query(...).get(...)` lookups are the partial maps of
    `Session`; the alias, annotation and disambiguation helpers, which live
    outside this file, are the function-valued fields of `Collaborators`. */
module EntityDataModel {
  import opened PyValue

  datatype Alias = Alias(name: string, sortName: string, languageId: Option<int>, primary: bool)

  datatype Annotation = Annotation(content: string)

  datatype Disambiguation = Disambiguation(comment: string)

  /** An identifier row, as `Identifier.create` fills it. */
  datatype Identifier = Identifier(identifierTypeId: Value, value: Value)

  /** An entity (publication, publisher, creator) loaded through the session. */
  datatype EntityRef = EntityRef(gid: Value)

  /** A row of the language table, identified by its `id` column. */
  datatype Language = Language(id: int)

  datatype CreatorCreditName = CreatorCreditName(position: Value, name: Value, joinPhrase: Value,
                                                 creator: Option<EntityRef>)

  datatype CreatorCredit = CreatorCredit(beginPhrase: Value, names: seq<CreatorCreditName>)

  /** The rows `session.query(X).get(key)` can find, per table. */
  datatype Session = Session(publications: map<Value, EntityRef>, publishers: map<Value, EntityRef>,
                             creators: map<Value, EntityRef>, languages: map<Value, Language>)

  /** `session.query(X).get(key)`: the row with that key, or None. */
  function Lookup<T>(table: map<Value, T>, key: Value): (r: Option<T>)
    ensures r.Some? <==> key in table
    ensures r.Some? ==> r.value == table[key]
  {
    if key in table then Some(table[key]) else None
  }

  /** What `create_aliases` and `update_aliases` return: the alias list and
      the default alias, if one was chosen. */
  datatype AliasResult = AliasResult(aliases: seq<Alias>, defaultAlias: Option<Alias>)

  /** The helpers imported from the entity module, which is not part of
      this model: they are parameters, constrained only where a lemma says so. */
  datatype Collaborators = Collaborators(
    createAnnotation: Payload -> Option<Annotation>,
    updateAnnotation: (Annotation, Payload) -> Option<Annotation>,
    createDisambiguation: Payload -> Option<Disambiguation>,
    updateDisambiguation: (Disambiguation, Payload) -> Option<Disambiguation>,
    createAliases: Payload -> AliasResult,
    updateAliases: (seq<Alias>, Option<Alias>, Payload) -> AliasResult)

  datatype Kind = Publication | Creator | Publisher | Edition | Work

  /** The `polymorphic_identity` of each kind; 0 belongs to the base class. */
  function TypeCode(k: Kind): (t: int)
    ensures 1 <= t <= 5
    ensures KindOfTypeCode(t) == Some(k)
  {
    match k
    case Publication => 1
    case Creator => 2
    case Publisher => 3
    case Edition => 4
    case Work => 5
  }

  /** The kind the ORM instantiates for a stored discriminant. */
  function KindOfTypeCode(t: int): Option<Kind>
  {
    if t == 1 then Some(Publication)
    else if t == 2 then Some(Creator)
    else if t == 3 then Some(Publisher)
    else if t == 4 then Some(Edition)
    else if t == 5 then Some(Work)
    else None
  }

  /** The fields every snapshot has. */
  datatype Common = Common(annotation: Option<Annotation>, disambiguation: Option<Disambiguation>,
                           aliases: seq<Alias>, defaultAlias: Option<Alias>, identifiers: seq<Identifier>)

  /** The fields of each kind. Column values are whatever Python value was
      assigned to them, which is how a tuple can end up in a date column. */
  datatype KindFields =
    | PublicationFields(publicationTypeId: Value)
    | CreatorFields(beginDate: Value, beginDatePrecision: Value, endDate: Value, endDatePrecision: Value,
                    ended: Value, countryId: Value, genderId: Value, creatorTypeId: Value)
    | PublisherFields(beginDate: Value, beginDatePrecision: Value, endDate: Value, endDatePrecision: Value,
                      ended: Value, countryId: Value, publisherTypeId: Value)
    | EditionFields(publication: Option<EntityRef>, creatorCredit: Option<CreatorCredit>,
                    releaseDate: Value, releaseDatePrecision: Value, countryId: Value, languageId: Value,
                    editionFormatId: Value, editionStatusId: Value, publisher: Option<EntityRef>)
    | WorkFields(workTypeId: Value, languages: seq<Language>)
  {
    function KindOf(): Kind
    {
      match this
      case PublicationFields(_) => Publication
      case CreatorFields(_, _, _, _, _, _, _, _) => Creator
      case PublisherFields(_, _, _, _, _, _, _) => Publisher
      case EditionFields(_, _, _, _, _, _, _, _, _) => Edition
      case WorkFields(_, _) => Work
    }
  }

  /** A snapshot. `strays` holds attributes assigned on the object that are
      not columns of its kind (`county_id`, a work's `begin_date`): they
      live on the Python object but are neither compared, copied nor stored. */
  datatype EntityData = EntityData(common: Common, fields: KindFields, strays: map<string, Value>)
  {
    function KindOf(): Kind
    {
      fields.KindOf()
    }
  }

  // ---------------------------------------------------------------------
  // Equality (`__eq__`)
  // ---------------------------------------------------------------------

  /** The base class's `zip` loop: the aliases agree position by position
      over the shorter of the two lists. */
  predicate ZipEqual(xs: seq<Alias>, ys: seq<Alias>)
  {
    forall i :: 0 <= i < |xs| && i < |ys| ==> xs[i] == ys[i]
  }

  /** `EntityData.__eq__`: identifiers are not compared. */
  predicate CommonEq(a: Common, b: Common)
  {
    && ZipEqual(a.aliases, b.aliases)
    && a.annotation == b.annotation
    && a.disambiguation == b.disambiguation
    && a.defaultAlias == b.defaultAlias
  }

  /** Each kind's own comparisons; an edition's publication, publisher and
      creator credit are not compared. */
  predicate FieldsEq(a: KindFields, b: KindFields)
    requires a.KindOf() == b.KindOf()
  {
    match a
    case PublicationFields(t) =>
      t == b.publicationTypeId
    case CreatorFields(bd, bdp, ed, edp, ended, country, gender, ctype) =>
      && bd == b.beginDate && bdp == b.beginDatePrecision
      && ed == b.endDate && edp == b.endDatePrecision
      && ended == b.ended && country == b.countryId
      && gender == b.genderId && ctype == b.creatorTypeId
    case PublisherFields(bd, bdp, ed, edp, ended, country, ptype) =>
      && bd == b.beginDate && bdp == b.beginDatePrecision
      && ed == b.endDate && edp == b.endDatePrecision
      && ended == b.ended && country == b.countryId
      && ptype == b.publisherTypeId
    case EditionFields(_, _, rd, rdp, country, lang, fmt, status, _) =>
      && rd == b.releaseDate && rdp == b.releaseDatePrecision
      && country == b.countryId && fmt == b.editionFormatId
      && status == b.editionStatusId && lang == b.languageId
    case WorkFields(wt, langs) =>
      wt == b.workTypeId && langs == b.languages
  }

  /** `a == b` for two snapshots of the same kind: the kind's own fields,
      then the base comparison. */
  predicate SnapshotEq(a: EntityData, b: EntityData)
    requires a.KindOf() == b.KindOf()
  {
    FieldsEq(a.fields, b.fields) && CommonEq(a.common, b.common)
  }

  // ---------------------------------------------------------------------
  // copy
  // ---------------------------------------------------------------------

  /** `EntityData.copy`: the annotation, disambiguation and default alias
      references and the alias list; a fresh object has no identifiers. */
  function CopyCommon(c: Common): Common
  {
    Common(c.annotation, c.disambiguation, c.aliases, c.defaultAlias, [])
  }

  /** Each kind's `copy`, as written. The creator's assignments end in
      commas, so each of those fields receives a one-element tuple, and the
      country goes to a misspelt attribute, leaving `country_id` unset.
      An edition's copy does not carry its publication, creator credit or
      publisher. */
  function Copy(d: EntityData): (r: EntityData)
    ensures r.KindOf() == d.KindOf()
    ensures r.common.identifiers == []
  {
    var common := CopyCommon(d.common);
    match d.fields
    case PublicationFields(t) =>
      EntityData(common, PublicationFields(t), map[])
    case CreatorFields(bd, bdp, ed, edp, ended, country, gender, ctype) =>
      EntityData(common,
                 CreatorFields(Tuple([bd]), Tuple([bdp]), Tuple([ed]), Tuple([edp]), Tuple([ended]),
                               Null, Tuple([gender]), ctype),
                 map["county_id" := Tuple([country])])
    case PublisherFields(bd, bdp, ed, edp, ended, country, ptype) =>
      EntityData(common, PublisherFields(bd, bdp, ed, edp, ended, country, ptype), map[])
    case EditionFields(_, _, rd, rdp, country, lang, fmt, status, _) =>
      EntityData(common, EditionFields(None, None, rd, rdp, country, lang, fmt, status, None), map[])
    case WorkFields(wt, langs) =>
      EntityData(common, WorkFields(wt, langs), map[])
  }

  // ---------------------------------------------------------------------
  // create
  // ---------------------------------------------------------------------

  /** `Identifier.create`: `data.get(...)` on an entry that is not a dict
      raises. */
  function IdentifierCreate(entry: Value): (r: Result<Identifier>)
    ensures r.Ok? <==> entry.Dict? && Get(entry.entries, "identifier_type", Dict(map[])).Dict?
    ensures r.Ok? ==> r.value.value == Get(entry.entries, "value", Null)
  {
    match entry
    case Dict(m) =>
      var typeId :- GetOn(Get(m, "identifier_type", Dict(map[])), "identifier_type_id", Null);
      Ok(Identifier(typeId, Get(m, "value", Null)))
    case _ => Err(AttributeError("get"))
  }

  /** `CreatorCreditName.create`: the creator is looked up by `creator_gid`. */
  function CreditNameCreate(entry: Value, session: Session): (r: Result<CreatorCreditName>)
    ensures r.Ok? <==> entry.Dict?
    ensures r.Ok? ==> r.value.creator == Lookup(session.creators, Get(entry.entries, "creator_gid", Null))
  {
    match entry
    case Dict(m) =>
      Ok(CreatorCreditName(Get(m, "position", Null), Get(m, "name", Null), Get(m, "join_phrase", Null),
                           Lookup(session.creators, Get(m, "creator_gid", Null))))
    case _ => Err(AttributeError("get"))
  }

  /** The credit `CreatorCredit.create` builds from `data`. */
  function CreditCreated(data: Value, session: Session): Result<CreatorCredit>
  {
    match data
    case Dict(m) =>
      var items :- Iterate(Get(m, "names", List([])));
      var names :- MapResult(items, (e: Value) => CreditNameCreate(e, session));
      Ok(CreatorCredit(Get(m, "begin_phrase", Str("")), names))
    case _ => Err(AttributeError("get"))
  }

  /** `CreatorCredit.create`: one name per entry of `names`, in order. */
  method CreateCreatorCredit(data: Value, session: Session) returns (r: Result<CreatorCredit>)
    ensures r == CreditCreated(data, session)
  {
    if !data.Dict? {
      return Err(AttributeError("get"));
    }
    var beginPhrase := Get(data.entries, "begin_phrase", Str(""));
    var items :- Iterate(Get(data.entries, "names", List([])));
    var credit := CreatorCredit(beginPhrase, []);
    var i := 0;
    while i < |items|
      invariant 0 <= i <= |items|
      invariant MapResult(items[..i], (e: Value) => CreditNameCreate(e, session)) == Ok(credit.names)
      invariant credit.beginPhrase == beginPhrase
    {
      var name := CreditNameCreate(items[i], session);
      MapResultSnoc(items, (e: Value) => CreditNameCreate(e, session), i, credit.names);
      if name.Err? {
        MapResultStops(items, (e: Value) => CreditNameCreate(e, session), i + 1);
        return Err(name.error);
      }
      credit := credit.(names := credit.names + [name.value]);
      i := i + 1;
    }
    assert items[..i] == items;
    r := Ok(credit);
  }

  /** The common part `EntityData.create` builds. The default alias is set
      only when `create_aliases` returns one; a fresh object has none. */
  function CommonCreated(data: Payload, hooks: Collaborators): Result<Common>
  {
    var created := hooks.createAliases(data);
    var items :- Iterate(Get(data, "identifiers", List([])));
    var identifiers :- MapResult(items, IdentifierCreate);
    Ok(Common(hooks.createAnnotation(data), hooks.createDisambiguation(data),
              created.aliases, created.defaultAlias, identifiers))
  }

  /** `EntityData.create`: annotation, disambiguation, aliases, then one
      identifier per entry of `identifiers`. */
  method CreateCommon(data: Payload, hooks: Collaborators) returns (r: Result<Common>)
    ensures r == CommonCreated(data, hooks)
  {
    var common := Common(hooks.createAnnotation(data), hooks.createDisambiguation(data), [], None, []);
    var created := hooks.createAliases(data);
    common := common.(aliases := created.aliases);
    if created.defaultAlias.Some? {
      common := common.(defaultAlias := created.defaultAlias);
    }
    var items :- Iterate(Get(data, "identifiers", List([])));
    var identifiers :- CreateIdentifiers(items);
    common := common.(identifiers := identifiers);
    r := Ok(common);
  }

  /** `create`'s identifier loop: one identifier per entry, in order. */
  method CreateIdentifiers(items: seq<Value>) returns (r: Result<seq<Identifier>>)
    ensures r == MapResult(items, IdentifierCreate)
  {
    var identifiers: seq<Identifier> := [];
    var i := 0;
    while i < |items|
      invariant 0 <= i <= |items|
      invariant MapResult(items[..i], IdentifierCreate) == Ok(identifiers)
    {
      var identifier := IdentifierCreate(items[i]);
      MapResultSnoc(items, IdentifierCreate, i, identifiers);
      if identifier.Err? {
        MapResultStops(items, IdentifierCreate, i + 1);
        return Err(identifier.error);
      }
      identifiers := identifiers + [identifier.value];
      i := i + 1;
    }
    assert items[..i] == items;
    r := Ok(identifiers);
  }

  /** The languages found for `ids`, in order; ids the session does not
      know are skipped. */
  function FoundLanguages(ids: seq<Value>, session: Session): seq<Language>
  {
    if ids == [] then []
    else
      var found := Lookup(session.languages, ids[|ids| - 1]);
      FoundLanguages(ids[..|ids| - 1], session) + (if found.Some? then [found.value] else [])
  }

  /** The loop that appends each language the session finds. */
  method AppendFoundLanguages(languages: seq<Language>, ids: seq<Value>, session: Session)
    returns (r: seq<Language>)
    ensures r == languages + FoundLanguages(ids, session)
  {
    r := languages;
    var i := 0;
    while i < |ids|
      invariant 0 <= i <= |ids|
      invariant r == languages + FoundLanguages(ids[..i], session)
    {
      assert ids[..i + 1][..i] == ids[..i];
      var language := Lookup(session.languages, ids[i]);
      if language.Some? {
        r := r + [language.value];
      }
      i := i + 1;
    }
    assert ids[..i] == ids;
  }

  /** A work's language entries, each `entry['language_id']`. */
  function LanguageIdOf(entry: Value): Result<Value>
  {
    Subscript(entry, "language_id")
  }

  /** The snapshot `create` builds for a kind, None for an edition without a
      publication, or the exception the code raises. */
  function Created(kind: Kind, data: Payload, session: Session, hooks: Collaborators): Result<Option<EntityData>>
  {
    var common :- CommonCreated(data, hooks);
    KindCreated(kind, common, data, session)
  }

  /** The kind's part of `create`, given the base part. */
  function KindCreated(kind: Kind, common: Common, data: Payload, session: Session): Result<Option<EntityData>>
  {
    match kind
    case Publication =>
      var typeId :- GetOn(Get(data, "publication_type", Dict(map[])), "publication_type_id", Null);
      Ok(Some(EntityData(common, PublicationFields(typeId), map[])))
    case Creator =>
      var genderId :- GetOn(Get(data, "gender", Dict(map[])), "gender_id", Null);
      var typeId :- GetOn(Get(data, "creator_type", Dict(map[])), "creator_type_id", Null);
      Ok(Some(EntityData(common,
                         CreatorFields(Get(data, "begin_date", Null), Get(data, "begin_date_precision", Null),
                                       Get(data, "end_date", Null), Get(data, "end_date_precision", Null),
                                       Get(data, "ended", Bool(false)), Get(data, "country_id", Null),
                                       genderId, typeId),
                         map[])))
    case Publisher =>
      var typeId :- GetOn(Get(data, "publisher_type", Dict(map[])), "publisher_type_id", Null);
      Ok(Some(EntityData(common,
                         PublisherFields(Get(data, "begin_date", Null), Get(data, "begin_date_precision", Null),
                                         Get(data, "end_date", Null), Get(data, "end_date_precision", Null),
                                         Get(data, "ended", Bool(false)), Get(data, "country_id", Null),
                                         typeId),
                         map[])))
    case Edition =>
      var publicationGid := Get(data, "publication_gid", Null);
      if publicationGid == Null then Ok(None)
      else
        var publication := Lookup(session.publications, publicationGid);
        var credit :- CreditCreated(Get(data, "creator_credit", Null), session);
        var languageId :- GetOn(Get(data, "language", Dict(map[])), "language_id", Null);
        var formatId :- GetOn(Get(data, "edition_format", Dict(map[])), "edition_format_id", Null);
        var statusId :- GetOn(Get(data, "edition_status", Dict(map[])), "edition_status_id", Null);
        if Get(data, "publisher_gid", Null) != Null then
          // `session.query(Publisher).get()` is called without a key.
          Err(TypeError("get() missing 1 required positional argument"))
        else
          Ok(Some(EntityData(common,
                             EditionFields(publication, Some(credit), Get(data, "release_date", Null),
                                           Get(data, "release_date_precision", Null), Get(data, "country_id", Null),
                                           languageId, formatId, statusId, None),
                             map[])))
    case Work => WorkCreated(common, data, session)
  }

  /** A work's `create`: its type, then the languages the session finds. */
  function WorkCreated(common: Common, data: Payload, session: Session): Result<Option<EntityData>>
  {
    var typeId :- GetOn(Get(data, "work_type", Dict(map[])), "work_type_id", Null);
    var items :- Iterate(Get(data, "languages", List([])));
    var languages :- LanguagesFound(items, session);
    Ok(Some(EntityData(common, WorkFields(typeId, languages), WorkCreateStrays(data))))
  }

  /** The attributes a work's `create` assigns although a work has no such
      columns. */
  function WorkCreateStrays(data: Payload): map<string, Value>
  {
    map["begin_date" := Get(data, "begin_date", Null),
        "begin_date_precision" := Get(data, "begin_date_precision", Null),
        "end_date" := Get(data, "end_date", Null),
        "end_date_precision" := Get(data, "end_date_precision", Null),
        "ended" := Get(data, "ended", Bool(false)),
        "country_id" := Get(data, "country_id", Null),
        "language_id" := Get(data, "language_id", Null)]
  }

  /** `EditionData.create` after the base part: nothing without a
      publication, otherwise the publication lookup and the creator credit. */
  method CreateEdition(common: Common, data: Payload, session: Session) returns (r: Result<Option<EntityData>>)
    ensures r == KindCreated(Edition, common, data, session)
  {
    var publicationGid := Get(data, "publication_gid", Null);
    if publicationGid == Null {
      return Ok(None);
    }
    var publication := Lookup(session.publications, publicationGid);
    var credit :- CreateCreatorCredit(Get(data, "creator_credit", Null), session);
    var languageId :- GetOn(Get(data, "language", Dict(map[])), "language_id", Null);
    var formatId :- GetOn(Get(data, "edition_format", Dict(map[])), "edition_format_id", Null);
    var statusId :- GetOn(Get(data, "edition_status", Dict(map[])), "edition_status_id", Null);
    if Get(data, "publisher_gid", Null) != Null {
      return Err(TypeError("get() missing 1 required positional argument"));
    }
    r := Ok(Some(EntityData(common,
                            EditionFields(publication, Some(credit), Get(data, "release_date", Null),
                                          Get(data, "release_date_precision", Null), Get(data, "country_id", Null),
                                          languageId, formatId, statusId, None),
                            map[])));
  }

  /** `WorkData.create` after the base part: each entry of `languages`
      names a language id, and the languages the session finds are appended. */
  method CreateWork(common: Common, data: Payload, session: Session) returns (r: Result<Option<EntityData>>)
    ensures r == WorkCreated(common, data, session)
  {
    var typeId :- GetOn(Get(data, "work_type", Dict(map[])), "work_type_id", Null);
    var items :- Iterate(Get(data, "languages", List([])));
    var languages :- CollectLanguages(items, session);
    r := Ok(Some(EntityData(common, WorkFields(typeId, languages), WorkCreateStrays(data))));
  }

  /** The languages of a work's entries: `entry['language_id']` of each, in
      order, keeping the ones the session finds. */
  function LanguagesFound(items: seq<Value>, session: Session): Result<seq<Language>>
  {
    var ids :- MapResult(items, LanguageIdOf);
    Ok(FoundLanguages(ids, session))
  }

  /** `create`'s language loop. */
  method CollectLanguages(items: seq<Value>, session: Session) returns (r: Result<seq<Language>>)
    ensures r == LanguagesFound(items, session)
  {
    var languages: seq<Language> := [];
    ghost var ids: seq<Value> := [];
    var i := 0;
    while i < |items|
      invariant 0 <= i <= |items|
      invariant MapResult(items[..i], LanguageIdOf) == Ok(ids)
      invariant languages == FoundLanguages(ids, session)
    {
      var found := LanguageIdOf(items[i]);
      MapResultSnoc(items, LanguageIdOf, i, ids);
      if found.Err? {
        MapResultStops(items, LanguageIdOf, i + 1);
        return Err(found.error);
      }
      var languageId := found.value;
      var language := Lookup(session.languages, languageId);
      var extra := if language.Some? then [language.value] else [];
      FoundLanguagesSnoc(ids, languageId, session);
      languages := languages + extra;
      ids := ids + [languageId];
      i := i + 1;
    }
    assert items[..i] == items;
    r := Ok(languages);
  }

  /** One more id adds the language the session finds for it, if any. */
  lemma FoundLanguagesSnoc(ids: seq<Value>, id: Value, session: Session)
    ensures var found := Lookup(session.languages, id);
            FoundLanguages(ids + [id], session) ==
            FoundLanguages(ids, session) + (if found.Some? then [found.value] else [])
  {
    assert (ids + [id])[..|ids|] == ids;
  }

  /** Each kind's `create`: the base part, then the kind's fields. */
  method Create(kind: Kind, data: Payload, session: Session, hooks: Collaborators)
    returns (r: Result<Option<EntityData>>)
    ensures r == Created(kind, data, session, hooks)
  {
    var common :- CreateCommon(data, hooks);
    match kind {
      case Edition =>
        r := CreateEdition(common, data, session);
      case Work =>
        r := CreateWork(common, data, session);
      case _ =>
        r := KindCreated(kind, common, data, session);
    }
  }

  // ---------------------------------------------------------------------
  // update
  // ---------------------------------------------------------------------

  /** `EntityData.update` on the copy: the annotation and disambiguation are
      updated (or created when the original has none), the aliases come
      from `update_aliases`, and the copied default alias is replaced only
      when `update_aliases` returns one. */
  function CommonUpdated(original: Common, copied: Common, data: Payload, hooks: Collaborators): Common
  {
    var annotation := if original.annotation.Some? then hooks.updateAnnotation(original.annotation.value, data)
                      else hooks.createAnnotation(data);
    var disambiguation := if original.disambiguation.Some? then hooks.updateDisambiguation(original.disambiguation.value, data)
                          else hooks.createDisambiguation(data);
    var updated := hooks.updateAliases(original.aliases, original.defaultAlias, data);
    copied.(annotation := annotation, disambiguation := disambiguation, aliases := updated.aliases,
            defaultAlias := if updated.defaultAlias.Some? then updated.defaultAlias else copied.defaultAlias)
  }

  /** `if key in data: field = data[key]` */
  function Overwrite(data: Payload, key: string, current: Value): Value
  {
    if key in data then data[key] else current
  }

  /** `if outer in data and inner in data[outer]: field = data[outer][inner]` */
  function OverwriteNested(data: Payload, outer: string, inner: string, current: Value): (r: Result<Value>)
    ensures outer !in data ==> r == Ok(current)
    ensures outer in data && data[outer].Dict? ==>
              r == Ok(if inner in data[outer].entries then data[outer].entries[inner] else current)
  {
    if outer !in data then Ok(current)
    else
      var present :- Contains(data[outer], inner);
      if present then Subscript(data[outer], inner) else Ok(current)
  }

  /** The edition's format and status checks as written:
      `if outer in data and outer in data[outerId]: field = data[outer][outerId]`.
      Whenever `outer` is present this indexes the payload with `outerId`. */
  function OverwriteMiskeyed(data: Payload, outer: string, outerId: string, current: Value): (r: Result<Value>)
    ensures outer !in data ==> r == Ok(current)
    ensures outer in data && outerId !in data ==> r == Err(KeyError(outerId))
  {
    if outer !in data then Ok(current)
    else
      var probe :- Subscript(Dict(data), outerId);
      var present :- Contains(probe, outer);
      if present then Subscript(data[outer], outerId) else Ok(current)
  }

  /** `for old, new in languages`: the pairs of a language patch. */
  function LanguagePairs(patch: Value): Result<seq<(Value, Value)>>
  {
    var items :- Iterate(patch);
    MapResult(items, Unpack2)
  }

  /** `[new for old, new in languages if old is None]` */
  function AddedIds(pairs: seq<(Value, Value)>): (r: seq<Value>)
    ensures |r| <= |pairs|
  {
    if pairs == [] then []
    else AddedIds(pairs[..|pairs| - 1]) + (if pairs[|pairs| - 1].0 == Null then [pairs[|pairs| - 1].1] else [])
  }

  /** `[old for old, new in languages if new is None]` */
  function RemovedIds(pairs: seq<(Value, Value)>): (r: seq<Value>)
    ensures |r| <= |pairs|
  {
    if pairs == [] then []
    else RemovedIds(pairs[..|pairs| - 1]) + (if pairs[|pairs| - 1].1 == Null then [pairs[|pairs| - 1].0] else [])
  }

  /** `[x for x in languages if x.language_id not in removed]`: a language
      row has no `language_id` attribute, so the first row raises. */
  function KeepLanguages(languages: seq<Language>, removed: seq<Value>): (r: Result<seq<Language>>)
    ensures r.Ok? <==> languages == []
  {
    if languages == [] then Ok([]) else Err(AttributeError("language_id"))
  }

  /** The kind's own overwrites, applied to the updated copy. */
  function FieldsUpdated(candidate: EntityData, data: Payload, session: Session): (r: Result<EntityData>)
    ensures r.Ok? ==> r.value.KindOf() == candidate.KindOf() && r.value.common == candidate.common
    ensures r.Ok? && candidate.fields.EditionFields? ==>
              && r.value.fields.publication == candidate.fields.publication
              && r.value.fields.creatorCredit == candidate.fields.creatorCredit
              && r.value.fields.publisher == candidate.fields.publisher
    ensures r.Ok? && candidate.fields.WorkFields? && "languages" !in data ==>
              r.value.fields.languages == candidate.fields.languages
  {
    match candidate.fields
    case PublicationFields(t) =>
      var typeId :- OverwriteNested(data, "publication_type", "publication_type_id", t);
      Ok(candidate.(fields := PublicationFields(typeId)))
    case CreatorFields(_, _, _, _, _, _, _, ctype) =>
      var typeId :- OverwriteNested(data, "creator_type", "creator_type_id", ctype);
      Ok(candidate.(fields := CreatorOverwritten(candidate.fields, data, typeId)))
    case PublisherFields(_, _, _, _, _, _, ptype) =>
      var typeId :- OverwriteNested(data, "publisher_type", "publisher_type_id", ptype);
      Ok(candidate.(fields := PublisherOverwritten(candidate.fields, data, typeId)))
    case EditionFields(_, _, _, _, _, lang, fmt, status, _) =>
      var formatId :- OverwriteMiskeyed(data, "edition_format", "edition_format_id", fmt);
      var statusId :- OverwriteMiskeyed(data, "edition_status", "edition_status_id", status);
      var languageId :- OverwriteNested(data, "language", "language_id", lang);
      Ok(candidate.(fields := EditionOverwritten(candidate.fields, data, languageId, formatId, statusId)))
    case WorkFields(wt, langs) =>
      var typeId :- OverwriteNested(data, "work_type", "work_type_id", wt);
      var languages :- LanguagesUpdated(langs, data, session);
      Ok(candidate.(fields := WorkFields(typeId, languages), strays := WorkUpdateStrays(candidate.strays, data)))
  }

  /** A work's language patch: without `languages` the list is kept;
      otherwise the removed ids are filtered out and the languages found
      for the added ids appended. */
  function LanguagesUpdated(languages: seq<Language>, data: Payload, session: Session): (r: Result<seq<Language>>)
    ensures "languages" !in data ==> r == Ok(languages)
  {
    if "languages" in data then
      var pairs :- LanguagePairs(data["languages"]);
      var kept :- KeepLanguages(languages, RemovedIds(pairs));
      Ok(kept + FoundLanguages(AddedIds(pairs), session))
    else
      Ok(languages)
  }

  /** A creator's plain overwrites, with the type already read. */
  function CreatorOverwritten(f: KindFields, data: Payload, typeId: Value): (r: KindFields)
    requires f.CreatorFields?
    ensures r.CreatorFields? && r.creatorTypeId == typeId
  {
    CreatorFields(
      Overwrite(data, "begin_date", f.beginDate), Overwrite(data, "begin_date_precision", f.beginDatePrecision),
      Overwrite(data, "end_date", f.endDate), Overwrite(data, "end_date_precision", f.endDatePrecision),
      Overwrite(data, "ended", f.ended), Overwrite(data, "country_id", f.countryId),
      Overwrite(data, "gender_id", f.genderId), typeId)
  }

  /** A publisher's plain overwrites, with the type already read. */
  function PublisherOverwritten(f: KindFields, data: Payload, typeId: Value): (r: KindFields)
    requires f.PublisherFields?
    ensures r.PublisherFields? && r.publisherTypeId == typeId
  {
    PublisherFields(
      Overwrite(data, "begin_date", f.beginDate), Overwrite(data, "begin_date_precision", f.beginDatePrecision),
      Overwrite(data, "end_date", f.endDate), Overwrite(data, "end_date_precision", f.endDatePrecision),
      Overwrite(data, "ended", f.ended), Overwrite(data, "country_id", f.countryId), typeId)
  }

  /** An edition's plain overwrites, with the language, format and status
      already read; the publication, credit and publisher are kept. */
  function EditionOverwritten(f: KindFields, data: Payload, languageId: Value, formatId: Value, statusId: Value)
    : (r: KindFields)
    requires f.EditionFields?
    ensures r.EditionFields? && r.publication == f.publication && r.creatorCredit == f.creatorCredit
    ensures r.publisher == f.publisher
  {
    EditionFields(
      f.publication, f.creatorCredit, Overwrite(data, "release_date", f.releaseDate),
      Overwrite(data, "release_date_precision", f.releaseDatePrecision), Overwrite(data, "country_id", f.countryId),
      languageId, formatId, statusId, f.publisher)
  }

  /** The date, `ended` and country assignments a work's `update` makes,
      which land on attributes a work does not have. */
  function WorkUpdateStrays(strays: map<string, Value>, data: Payload): map<string, Value>
  {
    var keys := ["begin_date", "begin_date_precision", "end_date", "end_date_precision", "ended", "country_id"];
    strays + map k | k in keys && k in data :: data[k]
  }

  /** The candidate snapshot `update` builds before the no-op test. */
  function Candidate(original: EntityData, data: Payload, session: Session, hooks: Collaborators)
    : (r: Result<EntityData>)
    ensures r.Ok? ==> r.value.KindOf() == original.KindOf()
  {
    var copied := Copy(original);
    FieldsUpdated(copied.(common := CommonUpdated(original.common, copied.common, data, hooks)), data, session)
  }

  /** Each kind's `update`: build the candidate, then return the original
      itself when the candidate compares equal to it. */
  method Update(original: EntityData, data: Payload, session: Session, hooks: Collaborators)
    returns (r: Result<EntityData>)
    ensures r.Err? <==> Candidate(original, data, session, hooks).Err?
    ensures r.Err? ==> r == Candidate(original, data, session, hooks)
    ensures r.Ok? ==> var c := Candidate(original, data, session, hooks).value;
                      r.value == if SnapshotEq(c, original) then original else c
  {
    var candidate := Copy(original);
    candidate := candidate.(common := CommonUpdated(original.common, candidate.common, data, hooks));
    ghost var base := candidate;
    match candidate.fields {
      case WorkFields(wt, langs) =>
        var strays := WorkUpdateStrays(candidate.strays, data);
        var typeId :- OverwriteNested(data, "work_type", "work_type_id", wt);
        var languages := langs;
        if "languages" in data {
          var pairs :- LanguagePairs(data["languages"]);
          var kept :- KeepLanguages(langs, RemovedIds(pairs));
          languages := AppendFoundLanguages(kept, AddedIds(pairs), session);
        }
        candidate := candidate.(fields := WorkFields(typeId, languages), strays := strays);
      case _ =>
        candidate :- FieldsUpdated(candidate, data, session);
    }
    assert Candidate(original, data, session, hooks) == Ok(candidate);
    if SnapshotEq(candidate, original) {
      r := Ok(original);
    } else {
      r := Ok(candidate);
    }
  }
}
