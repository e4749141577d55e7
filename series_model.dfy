/**
 * The series document: the checks its schema makes before a save, the slug
 * hook, the `createdAt` default, and the collection the documents are saved to.
 *
 * `slugify` and the date parser are parameters: the model records what they
 * are applied to, not what they compute.
 */
module SeriesModel {
  import opened Common
  import opened Errors

  /** A document id (`_id`); a user id in the `user` path. */
  type Id = string

  /** The values the `watchingType` enum allows. */
  const WatchingTypes: seq<string> := ["watched", "planning to watch"]

  /** A `Date` path: unset, a time in milliseconds since the epoch, or a text
      that failed to cast (reported when the document is validated). */
  datatype DateValue = NoDate | Date(ms: int) | Unparsable(text: string)

  /** Assigning a text to a `Date` path: the empty text is `null`, anything
      else is parsed. */
  function CastDate(s: string, parseDate: string -> Option<int>): (d: DateValue)
    ensures s == "" ==> d == NoDate
    ensures d.Unparsable? <==> s != "" && parseDate(s).None?
    ensures d.Date? ==> parseDate(s) == Some(d.ms)
  {
    if s == "" then NoDate
    else match parseDate(s)
      case Some(ms) => Date(ms)
      case None => Unparsable(s)
  }

  /** The paths of a series document. `createdAt` is `None` on a document
      loaded without it. */
  datatype SeriesData = SeriesData(
    name: Option<string>,
    slug: Option<string>,
    url: Option<string>,
    country: Option<string>,
    watchingType: Option<string>,
    user: Option<Id>,
    dateOfWatching: DateValue,
    dateOfAdding: DateValue,
    createdAt: Option<int>)

  // ---------------------------------------------------------------------------
  // the schema's checks
  // ---------------------------------------------------------------------------

  /** A `required` string path: `undefined` and the empty string fail. */
  function RequiredErrors(path: string, v: Option<string>, message: string): (fs: seq<ValidatorError>)
    ensures fs == [] <==> Truthy(v)
    ensures fs != [] ==> fs == [ValidatorError(path, message)]
  {
    if !Truthy(v) then [ValidatorError(path, message)] else []
  }

  function EnumMessage(w: string): string {
    "`" + w + "` is not a valid enum value for path `watchingType`."
  }

  /** `required`, then `enum`. */
  function WatchingTypeErrors(w: Option<string>): (fs: seq<ValidatorError>)
    ensures fs == [] <==> w.Some? && w.value in WatchingTypes
    ensures |fs| <= 1
  {
    if !Truthy(w) then [ValidatorError("watchingType", "A series must have a watching type")]
    else if w.value !in WatchingTypes then [ValidatorError("watchingType", EnumMessage(w.value))]
    else []
  }

  function UserErrors(u: Option<Id>): (fs: seq<ValidatorError>)
    ensures fs == [] <==> u.Some?
  {
    if u.None? then [ValidatorError("user", "Path `user` is required.")] else []
  }

  function CastMessage(path: string, text: string): string {
    "Cast to date failed for value \"" + text + "\" (type string) at path \"" + path + "\""
  }

  /** A date that failed to cast is reported with its path. */
  function DateErrors(path: string, d: DateValue): (fs: seq<ValidatorError>)
    ensures fs == [] <==> !d.Unparsable?
  {
    if d.Unparsable? then [ValidatorError(path, CastMessage(path, d.text))] else []
  }

  /** What a save may store: a name, a url, a country, a watching type from
      the enum, an owner, and dates that cast. */
  predicate SeriesValid(d: SeriesData) {
    Truthy(d.name) && Truthy(d.url) && Truthy(d.country)
    && d.watchingType.Some? && d.watchingType.value in WatchingTypes
    && d.user.Some?
    && !d.dateOfWatching.Unparsable? && !d.dateOfAdding.Unparsable?
  }

  /** The errors of a validation, one per failing path, in schema order; the
      save goes ahead exactly when there are none. */
  function SeriesErrors(d: SeriesData): (fs: seq<ValidatorError>)
    ensures fs == [] <==> SeriesValid(d)
  {
    RequiredErrors("name", d.name, "A series must have a name")
    + RequiredErrors("url", d.url, "A series must have a url")
    + RequiredErrors("country", d.country, "A series must have a country")
    + WatchingTypeErrors(d.watchingType)
    + UserErrors(d.user)
    + DateErrors("dateOfWatching", d.dateOfWatching)
    + DateErrors("dateOfAdding", d.dateOfAdding)
  }

  /** A watching type outside the enum is reported with its value, and the
      document is not saved. */
  lemma UnknownWatchingTypeReported(d: SeriesData)
    requires Truthy(d.watchingType) && d.watchingType.value !in WatchingTypes
    ensures ValidatorError("watchingType", EnumMessage(d.watchingType.value)) in SeriesErrors(d)
    ensures !SeriesValid(d)
  {
    var before := RequiredErrors("name", d.name, "A series must have a name")
      + RequiredErrors("url", d.url, "A series must have a url")
      + RequiredErrors("country", d.country, "A series must have a country");
    var after := UserErrors(d.user) + DateErrors("dateOfWatching", d.dateOfWatching)
      + DateErrors("dateOfAdding", d.dateOfAdding);
    assert SeriesErrors(d) == before + WatchingTypeErrors(d.watchingType) + after;
    assert SeriesErrors(d)[|before|] == ValidatorError("watchingType", EnumMessage(d.watchingType.value));
  }

  /** Exactly the two enum values are accepted as watching types. */
  lemma WatchingTypeEnum(d: SeriesData)
    requires Truthy(d.name) && Truthy(d.url) && Truthy(d.country) && d.user.Some?
    requires !d.dateOfWatching.Unparsable? && !d.dateOfAdding.Unparsable?
    ensures SeriesValid(d) <==> d.watchingType == Some("watched") || d.watchingType == Some("planning to watch")
  {
  }

  // ---------------------------------------------------------------------------
  // the document
  // ---------------------------------------------------------------------------

  /** A series document in memory. */
  class Series {
    const id: Id
    var name: Option<string>
    var slug: Option<string>
    var url: Option<string>
    var country: Option<string>
    var watchingType: Option<string>
    var user: Option<Id>
    var dateOfWatching: DateValue
    var dateOfAdding: DateValue
    var createdAt: Option<int>

    function Data(): SeriesData
      reads this
    {
      SeriesData(name, slug, url, country, watchingType, user, dateOfWatching, dateOfAdding, createdAt)
    }

    /** A new document; `createdAt` takes the schema default. */
    constructor New(id: Id, d: SeriesData, createdAtDefault: int)
      ensures this.id == id && Data() == d.(createdAt := Some(createdAtDefault))
    {
      this.id := id;
      name := d.name;
      slug := d.slug;
      url := d.url;
      country := d.country;
      watchingType := d.watchingType;
      user := d.user;
      dateOfWatching := d.dateOfWatching;
      dateOfAdding := d.dateOfAdding;
      createdAt := Some(createdAtDefault);
    }

    /** A document read from the collection: `createdAt` is `select: false`,
        so it is not loaded. */
    constructor Loaded(id: Id, d: SeriesData)
      ensures this.id == id && Data() == Hidden(d)
    {
      this.id := id;
      name := d.name;
      slug := d.slug;
      url := d.url;
      country := d.country;
      watchingType := d.watchingType;
      user := d.user;
      dateOfWatching := d.dateOfWatching;
      dateOfAdding := d.dateOfAdding;
      createdAt := None;
    }

    /** The pre-save hook: the slug is recomputed from the name (lower-cased
        by `slugify`), whatever it was before. */
    method SetSlug(slugify: string -> string)
      requires name.Some?
      modifies this`slug
      ensures Data() == old(Data()).(slug := Some(slugify(name.value)))
    {
      slug := Some(slugify(name.value));
    }
  }

  /** What a query returns of a stored record: everything but `createdAt`. */
  function Hidden(d: SeriesData): (r: SeriesData)
    ensures r.createdAt.None?
    ensures r.(createdAt := d.createdAt) == d
  {
    d.(createdAt := None)
  }

  // ---------------------------------------------------------------------------
  // the collection
  // ---------------------------------------------------------------------------

  datatype SeriesDoc = SeriesDoc(id: Id, data: SeriesData)

  /** A stored series: valid, its slug that of its name, and its creation
      time the schema default. */
  predicate AtRest(d: SeriesData, createdAtDefault: int, slugify: string -> string) {
    SeriesValid(d) && d.slug == Some(slugify(d.name.value)) && d.createdAt == Some(createdAtDefault)
  }

  /** Every record at rest, ids unique. */
  predicate Stored(docs: seq<SeriesDoc>, createdAtDefault: int, slugify: string -> string) {
    (forall i :: 0 <= i < |docs| ==> AtRest(docs[i].data, createdAtDefault, slugify))
    && (forall i, j :: 0 <= i < j < |docs| ==> docs[i].id != docs[j].id)
  }

  /** `findById(id)`. */
  function IndexOf(docs: seq<SeriesDoc>, id: Id): Option<nat> {
    FirstMatch(docs, (d: SeriesDoc) => d.id == id)
  }

  /** `findOne({ _id: id, user })`: the record must belong to the user. */
  function FindOwned(docs: seq<SeriesDoc>, id: Id, user: Id): (r: Option<nat>)
    ensures r.Some? ==> r.value < |docs| && docs[r.value].id == id && docs[r.value].data.user == Some(user)
    ensures r.None? <==> forall j :: 0 <= j < |docs| ==> docs[j].id != id || docs[j].data.user != Some(user)
  {
    FirstMatch(docs, (d: SeriesDoc) => d.id == id && d.data.user == Some(user))
  }

  /** `findOne({ name, user })`. A key whose value is `undefined` is taken to
      be dropped from the filter (an assumption, see README), so without a
      name any record of the user matches. */
  function FindByName(docs: seq<SeriesDoc>, name: Option<string>, user: Id): (r: Option<nat>)
    ensures r.Some? ==> r.value < |docs| && docs[r.value].data.user == Some(user)
    ensures r.Some? && name.Some? ==> docs[r.value].data.name == name
    ensures r.None? <==> forall j :: 0 <= j < |docs| ==>
      docs[j].data.user != Some(user) || (name.Some? && docs[j].data.name != name)
  {
    FirstMatch(docs, (d: SeriesDoc) => (name.None? || d.data.name == name) && d.data.user == Some(user))
  }

  /** The records with `records[i]` removed. */
  function RemoveAt(docs: seq<SeriesDoc>, i: nat): (r: seq<SeriesDoc>)
    requires i < |docs|
    ensures |r| == |docs| - 1
    ensures forall j :: 0 <= j < i ==> r[j] == docs[j]
    ensures forall j :: i <= j < |r| ==> r[j] == docs[j + 1]
  {
    docs[..i] + docs[i + 1..]
  }

  /** Every record has the same creation time: the default was computed once,
      when the schema was defined, not when each document was created. */
  lemma SameCreationTime(docs: seq<SeriesDoc>, createdAtDefault: int, slugify: string -> string, i: nat, j: nat)
    requires Stored(docs, createdAtDefault, slugify) && i < |docs| && j < |docs|
    ensures docs[i].data.createdAt == docs[j].data.createdAt == Some(createdAtDefault)
  {
  }

  /** In a stored collection the position of a record is the position of its
      id. */
  lemma IdsAreIndexes(docs: seq<SeriesDoc>, createdAtDefault: int, slugify: string -> string, i: nat)
    requires Stored(docs, createdAtDefault, slugify) && i < |docs|
    ensures IndexOf(docs, docs[i].id) == Some(i)
  {
    var found := IndexOf(docs, docs[i].id);
    assert found.Some?;
    assert docs[found.value].id == docs[i].id;
  }

  /** The series collection, in insertion order. `createdAtDefault` is the
      value `Date.now()` had when the schema was defined. */
  class SeriesStore {
    var docs: seq<SeriesDoc>
    const createdAtDefault: int
    const slugify: string -> string

    predicate Valid()
      reads this
    {
      Stored(docs, createdAtDefault, slugify)
    }

    constructor (createdAtDefault: int, slugify: string -> string)
      ensures Valid() && docs == []
      ensures this.createdAtDefault == createdAtDefault && this.slugify == slugify
    {
      docs := [];
      this.createdAtDefault := createdAtDefault;
      this.slugify := slugify;
    }

    /** `Series.create(d)`: validate, run the slug hook, insert. `id` is the
        fresh `_id` the driver generates. */
    method Create(id: Id, d: SeriesData) returns (result: Result<SeriesData>)
      requires Valid() && IndexOf(docs, id).None?
      modifies this
      ensures Valid()
      ensures !SeriesValid(d) ==> result == Fail(ValidationError("Series", SeriesErrors(d))) && docs == old(docs)
      ensures SeriesValid(d) ==>
        var stored := d.(slug := Some(slugify(d.name.value)), createdAt := Some(createdAtDefault));
        result == Ok(stored) && docs == old(docs) + [SeriesDoc(id, stored)]
    {
      var series := new Series.New(id, d, createdAtDefault);
      var errors := SeriesErrors(series.Data());
      if errors != [] {
        assert series.Data().(createdAt := d.createdAt) == d;
        return Fail(ValidationError("Series", errors));
      }
      series.SetSlug(slugify);
      var record := SeriesDoc(id, series.Data());
      forall i, j | 0 <= i < j < |docs + [record]|
        ensures (docs + [record])[i].id != (docs + [record])[j].id
      {
        if j == |docs| {
          assert (docs + [record])[i] == docs[i];
        }
      }
      docs := docs + [record];
      result := Ok(series.Data());
    }

    /** `series.save()` on a loaded document: validate, run the slug hook,
        write every path but the `createdAt` that was not loaded. A failure
        writes nothing. */
    method Save(series: Series) returns (err: Option<Err>)
      requires Valid() && IndexOf(docs, series.id).Some?
      modifies this, series
      ensures Valid()
      ensures !SeriesValid(old(series.Data())) ==>
        err == Some(ValidationError("Series", SeriesErrors(old(series.Data())))) &&
        docs == old(docs) && series.Data() == old(series.Data())
      ensures SeriesValid(old(series.Data())) ==>
        var i := IndexOf(old(docs), series.id).value;
        err.None? &&
        series.Data() == old(series.Data()).(slug := Some(slugify(old(series.name).value))) &&
        docs == old(docs)[i := SeriesDoc(series.id, series.Data().(createdAt := old(docs)[i].data.createdAt))]
    {
      var errors := SeriesErrors(series.Data());
      if errors != [] {
        return Some(ValidationError("Series", errors));
      }
      series.SetSlug(slugify);
      var i := IndexOf(docs, series.id).value;
      docs := docs[i := SeriesDoc(series.id, series.Data().(createdAt := docs[i].data.createdAt))];
      err := None;
    }

    /** `findByIdAndDelete(id)`: the record with that id is removed, if there
        is one. */
    method Delete(id: Id)
      requires Valid()
      modifies this
      ensures Valid()
      ensures IndexOf(old(docs), id).None? ==> docs == old(docs)
      ensures IndexOf(old(docs), id).Some? ==> docs == RemoveAt(old(docs), IndexOf(old(docs), id).value)
      ensures forall d :: d in docs <==> d in old(docs) && d.id != id
    {
      var found := IndexOf(docs, id);
      if found.None? {
        return;
      }
      var i := found.value;
      var rest := RemoveAt(docs, i);
      forall d | d in docs
        ensures d in rest <==> d.id != id
      {
        var k :| 0 <= k < |docs| && docs[k] == d;
        if k < i {
          assert rest[k] == d;
        } else if k > i {
          assert rest[k - 1] == d;
        } else {
          assert d.id == id;
        }
      }
      docs := rest;
    }
  }
}
