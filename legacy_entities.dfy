/** The older snapshot classes and their `copy` class methods: each builds
    a fresh snapshot from the other one's kind columns with a single
    constructor call. The base columns (annotation, disambiguation, aliases
    and so on) belong to a base class that is not part of this model; a
    fresh snapshot has none of them set, which `base == map[]` records. */
module LegacyEntities {
  import opened PyValue

  datatype LegacyData =
    | LegacyPublication(base: map<string, Value>, publicationTypeId: Value)
    | LegacyCreator(base: map<string, Value>, beginDate: Value, beginDatePrecision: Value, endDate: Value,
                    endDatePrecision: Value, ended: Value, countryId: Value, genderId: Value,
                    creatorTypeId: Value, strays: map<string, Value>)
    | LegacyPublisher(base: map<string, Value>, beginDate: Value, beginDatePrecision: Value, endDate: Value,
                      endDatePrecision: Value, ended: Value, countryId: Value, publisherTypeId: Value)
    | LegacyEdition(base: map<string, Value>, beginDate: Value, beginDatePrecision: Value, endDate: Value,
                    endDatePrecision: Value, ended: Value, countryId: Value, languageId: Value,
                    editionStatusId: Value)
    | LegacyWork(base: map<string, Value>, workTypeId: Value, languages: seq<int>)

  /** The two snapshots agree on every column of their (common) kind: the
      reference a faithful copy is measured against. */
  predicate SameKindColumns(a: LegacyData, b: LegacyData)
  {
    match a
    case LegacyPublication(_, t) =>
      b.LegacyPublication? && t == b.publicationTypeId
    case LegacyCreator(_, bd, bdp, ed, edp, ended, country, gender, ctype, _) =>
      && b.LegacyCreator?
      && bd == b.beginDate && bdp == b.beginDatePrecision && ed == b.endDate && edp == b.endDatePrecision
      && ended == b.ended && country == b.countryId && gender == b.genderId && ctype == b.creatorTypeId
    case LegacyPublisher(_, bd, bdp, ed, edp, ended, country, ptype) =>
      && b.LegacyPublisher?
      && bd == b.beginDate && bdp == b.beginDatePrecision && ed == b.endDate && edp == b.endDatePrecision
      && ended == b.ended && country == b.countryId && ptype == b.publisherTypeId
    case LegacyEdition(_, bd, bdp, ed, edp, ended, country, lang, status) =>
      && b.LegacyEdition?
      && bd == b.beginDate && bdp == b.beginDatePrecision && ed == b.endDate && edp == b.endDatePrecision
      && ended == b.ended && country == b.countryId && lang == b.languageId && status == b.editionStatusId
    case LegacyWork(_, wt, langs) =>
      b.LegacyWork? && wt == b.workTypeId && langs == b.languages
  }

  /** The columns a creator copy should carry, all but the country. */
  predicate SameCreatorColumnsButCountry(a: LegacyData, b: LegacyData)
    requires a.LegacyCreator? && b.LegacyCreator?
  {
    && a.beginDate == b.beginDate && a.beginDatePrecision == b.beginDatePrecision
    && a.endDate == b.endDate && a.endDatePrecision == b.endDatePrecision
    && a.ended == b.ended && a.genderId == b.genderId && a.creatorTypeId == b.creatorTypeId
  }

  /** Each kind's `copy`. The creator's passes the country as `county_id`, a
      keyword naming no column: `declarativeRejectsUnknown` says whether the
      constructor of the (unseen) declarative base refuses such keywords, as
      SQLAlchemy's default constructor does, or stores them as a plain
      attribute. */
  function Copy(other: LegacyData, declarativeRejectsUnknown: bool): (r: Result<LegacyData>)
    ensures r.Ok? ==> r.value.base == map[]
    ensures r.Err? <==> other.LegacyCreator? && declarativeRejectsUnknown
  {
    match other
    case LegacyPublication(_, t) =>
      Ok(LegacyPublication(map[], t))
    case LegacyCreator(_, bd, bdp, ed, edp, ended, country, gender, ctype, _) =>
      if declarativeRejectsUnknown then Err(TypeError("'county_id' is an invalid keyword argument"))
      else Ok(LegacyCreator(map[], bd, bdp, ed, edp, ended, Null, gender, ctype, map["county_id" := country]))
    case LegacyPublisher(_, bd, bdp, ed, edp, ended, country, ptype) =>
      Ok(LegacyPublisher(map[], bd, bdp, ed, edp, ended, country, ptype))
    case LegacyEdition(_, bd, bdp, ed, edp, ended, country, lang, status) =>
      Ok(LegacyEdition(map[], bd, bdp, ed, edp, ended, country, lang, status))
    case LegacyWork(_, wt, langs) =>
      Ok(LegacyWork(map[], wt, langs))
  }

  /** Every copy but the creator's carries all of its kind's columns. */
  lemma {:induction false} CopyPreservesKindColumns(other: LegacyData, declarativeRejectsUnknown: bool)
    requires !other.LegacyCreator?
    ensures Copy(other, declarativeRejectsUnknown).Ok?
    ensures SameKindColumns(Copy(other, declarativeRejectsUnknown).value, other)
  {
    match other
    case LegacyPublication(_, _) =>
    case LegacyPublisher(_, _, _, _, _, _, _, _) =>
    case LegacyEdition(_, _, _, _, _, _, _, _, _) =>
    case LegacyWork(_, _, _) =>
  }

  /** The creator's copy either raises, or carries every column but the
      country, which it leaves unset; it agrees with the original on all
      columns only when the original has no country. */
  lemma {:induction false} CreatorCopyDropsCountry(other: LegacyData, declarativeRejectsUnknown: bool)
    requires other.LegacyCreator?
    ensures var r := Copy(other, declarativeRejectsUnknown);
            r.Ok? ==> && r.value.LegacyCreator?
                      && SameCreatorColumnsButCountry(r.value, other)
                      && r.value.countryId == Null
                      && (SameKindColumns(r.value, other) <==> other.countryId == Null)
  {
  }

  /** Copying a copy changes nothing more, for every kind but the creator. */
  lemma {:induction false} CopyIdempotent(other: LegacyData, declarativeRejectsUnknown: bool)
    requires !other.LegacyCreator?
    ensures var once := Copy(other, declarativeRejectsUnknown).value;
            Copy(once, declarativeRejectsUnknown) == Ok(once)
  {
    CopyPreservesKindColumns(other, declarativeRejectsUnknown);
  }
}
