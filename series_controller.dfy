/**
 * The series handlers. They run behind `protect`, so `uid`, the caller's id
 * (`req.user._id`), is always defined.
 *
 * Running a query against the collection is not modelled: `execute` stands
 * for the listing query and `count` for `countDocuments`, each applied to the
 * query or filter the handler built.
 */
module SeriesController {
  import opened Common
  import opened Errors
  import opened ApiFeatures
  import opened SeriesModel
  import opened Http

  /** The JSON bodies the handlers send. */
  datatype Body =
    | ListBody(status: string, results: nat, page: seq<SeriesData>, docCount: nat)
    | SeriesBody(status: string, series: SeriesData)
    | MessageBody(status: string, message: string)
    | EditedBody(status: string, message: string, series: SeriesData)
    | DeletedBody(status: string)

  const DuplicateNameMessage := "You already have a series with this name."
  const CreatedMessage := "New series was added successfully."
  const EditedMessage := "Series data edited successfully."

  // ---------------------------------------------------------------------------
  // getAllSeries
  // ---------------------------------------------------------------------------

  /** A value of the count filter: a query parameter as given (or `undefined`),
      the caller's id, or a case-insensitive regular expression. */
  datatype CountValue = Undefined | Given(v: QVal) | Owner(id: Id) | NamePrefix(pattern: string, flags: string)

  /** The keys the count filter may have. */
  const CountKeys: set<string> := {"watchingType", "user", "country", "name", "dateOfWatching", "dateOfAdding"}

  /** A key that is present only when its value is. */
  function Optional(key: string, v: Option<CountValue>): (m: map<string, CountValue>)
    ensures key in m <==> v.Some?
    ensures m.Keys <= {key}
    ensures v.Some? ==> m[key] == v.value
  {
    if v.Some? then map[key := v.value] else map[]
  }

  function GivenValue(p: Option<QVal>): (v: Option<CountValue>)
    ensures v.Some? <==> p.Some?
    ensures p.Some? ==> v.value == Given(p.value)
  {
    if p.Some? then Some(Given(p.value)) else None
  }

  function PrefixValue(p: Option<QVal>): (v: Option<CountValue>)
    ensures v.Some? <==> p.Some?
    ensures p.Some? ==> v.value == NamePrefix("^" + ToJsString(p.value), "i")
  {
    if p.Some? then Some(NamePrefix("^" + ToJsString(p.value), "i")) else None
  }

  /** The keys added for the optional parameters, in the order the handler
      adds them. */
  function Extras(country: Option<QVal>, search: Option<QVal>,
                  dateOfWatching: Option<QVal>, dateOfAdding: Option<QVal>): (e: map<string, CountValue>)
    ensures e.Keys <= {"country", "name", "dateOfWatching", "dateOfAdding"}
    ensures ("country" in e <==> country.Some?) && (country.Some? ==> e["country"] == Given(country.value))
    ensures ("name" in e <==> search.Some?) &&
      (search.Some? ==> e["name"] == NamePrefix("^" + ToJsString(search.value), "i"))
    ensures ("dateOfWatching" in e <==> dateOfWatching.Some?) &&
      (dateOfWatching.Some? ==> e["dateOfWatching"] == Given(dateOfWatching.value))
    ensures ("dateOfAdding" in e <==> dateOfAdding.Some?) &&
      (dateOfAdding.Some? ==> e["dateOfAdding"] == Given(dateOfAdding.value))
  {
    map[]
    + Optional("country", GivenValue(country))
    + Optional("name", PrefixValue(search))
    + Optional("dateOfWatching", GivenValue(dateOfWatching))
    + Optional("dateOfAdding", GivenValue(dateOfAdding))
  }

  /** The count filter from the five parameters it reads: `watchingType` and
      `user`, spread with the optional keys. */
  function CountFilterOf(watchingType: Option<QVal>, country: Option<QVal>, search: Option<QVal>,
                         dateOfWatching: Option<QVal>, dateOfAdding: Option<QVal>, uid: Id): (f: map<string, CountValue>)
    ensures f.Keys <= CountKeys
    ensures "user" in f && f["user"] == Owner(uid)
    ensures "watchingType" in f
    ensures f["watchingType"] == (if watchingType.Some? then Given(watchingType.value) else Undefined)
    ensures ("country" in f <==> country.Some?) && (country.Some? ==> f["country"] == Given(country.value))
    ensures ("name" in f <==> search.Some?) &&
      (search.Some? ==> f["name"] == NamePrefix("^" + ToJsString(search.value), "i"))
    ensures ("dateOfWatching" in f <==> dateOfWatching.Some?) &&
      (dateOfWatching.Some? ==> f["dateOfWatching"] == Given(dateOfWatching.value))
    ensures ("dateOfAdding" in f <==> dateOfAdding.Some?) &&
      (dateOfAdding.Some? ==> f["dateOfAdding"] == Given(dateOfAdding.value))
  {
    map["watchingType" := if watchingType.Some? then Given(watchingType.value) else Undefined, "user" := Owner(uid)]
    + Extras(country, search, dateOfWatching, dateOfAdding)
  }

  /** Adding an optional key is assigning it when it has a value. */
  lemma AddOptional(m: map<string, CountValue>, key: string, v: Option<CountValue>)
    ensures m + Optional(key, v) == if v.Some? then m[key := v.value] else m
  {
  }

  /** The filter `countDocuments` receives. */
  function CountFilter(qs: QueryString, uid: Id): map<string, CountValue> {
    CountFilterOf(Get(qs, "watchingType"), Get(qs, "country"), Get(qs, "search"),
                  Get(qs, "dateOfWatching"), Get(qs, "dateOfAdding"), uid)
  }

  /**
   * The count filter as the handler builds it: `filterQuery` gets one key per
   * defined parameter, then the filter is `watchingType` and `user` spread
   * with `filterQuery` when some parameter was defined, and without it
   * otherwise. Both branches give the same filter.
   */
  method BuildCountFilter(qs: QueryString, uid: Id) returns (filter: map<string, CountValue>)
    ensures filter == CountFilter(qs, uid)
  {
    var country := Get(qs, "country");
    var search := Get(qs, "search");
    var dateOfWatching := Get(qs, "dateOfWatching");
    var dateOfAdding := Get(qs, "dateOfAdding");
    var watchingType := Get(qs, "watchingType");
    filter := CountFilterBranches(watchingType, country, search, dateOfWatching, dateOfAdding, uid);
  }

  /** The successive assignments and the final `if`, on the five values
      read from the query string. */
  method CountFilterBranches(watchingType: Option<QVal>, country: Option<QVal>, search: Option<QVal>,
                             dateOfWatching: Option<QVal>, dateOfAdding: Option<QVal>, uid: Id)
    returns (filter: map<string, CountValue>)
    ensures filter == CountFilterOf(watchingType, country, search, dateOfWatching, dateOfAdding, uid)
  {
    var filterQuery: map<string, CountValue> := map[];
    if country.Some? {
      filterQuery := filterQuery["country" := Given(country.value)];
    }
    AddOptional(map[], "country", GivenValue(country));
    if search.Some? {
      filterQuery := filterQuery["name" := NamePrefix("^" + ToJsString(search.value), "i")];
    }
    AddOptional(map[] + Optional("country", GivenValue(country)), "name", PrefixValue(search));
    if dateOfWatching.Some? {
      filterQuery := filterQuery["dateOfWatching" := Given(dateOfWatching.value)];
    }
    AddOptional(map[] + Optional("country", GivenValue(country)) + Optional("name", PrefixValue(search)),
                "dateOfWatching", GivenValue(dateOfWatching));
    if dateOfAdding.Some? {
      filterQuery := filterQuery["dateOfAdding" := Given(dateOfAdding.value)];
    }
    AddOptional(map[] + Optional("country", GivenValue(country)) + Optional("name", PrefixValue(search))
                + Optional("dateOfWatching", GivenValue(dateOfWatching)), "dateOfAdding", GivenValue(dateOfAdding));
    assert filterQuery == Extras(country, search, dateOfWatching, dateOfAdding);

    var base := map["watchingType" := if watchingType.Some? then Given(watchingType.value) else Undefined,
                    "user" := Owner(uid)];
    if country.Some? || search.Some? || dateOfWatching.Some? || dateOfAdding.Some? {
      filter := base + filterQuery;
    } else {
      AddOptional(base, "country", None);
      filter := base;
    }
  }

  /** The listing query: scoped to the caller, then the builder's stages in
      call order. */
  function ListingQuery(qs: QueryString, uid: Id): (q: seq<QueryOp>)
    requires SortArgument(qs).Some? && FieldsArgument(qs).Some?
  {
    [Find(OwnedBy(Some(uid)))] + [Find(Json(FilterText(qs)))] + SearchOps(qs)
    + [SortBy(SortArgument(qs).value)] + [Select(FieldsArgument(qs).value)] + PaginationOps(qs)
  }

  /** Whatever the query string, the listing finds only the caller's series
      first and ends with one page of at most 12. */
  lemma ListingScopedToCaller(qs: QueryString, uid: Id)
    requires SortArgument(qs).Some? && FieldsArgument(qs).Some?
    ensures var q := ListingQuery(qs, uid);
      q[0] == Find(OwnedBy(Some(uid))) && |q| >= 6 && q[|q| - 1] == Limit(12)
  {
    PaginationShape(qs);
  }

  /**
   * `getAllSeries`: build the listing query through the builder and the
   * count filter beside it, then send the page, its length and the count.
   * A `sort` or `fields` parameter that is not a string makes the builder
   * throw.
   */
  method GetAllSeries(uid: Id, qs: QueryString, execute: seq<QueryOp> -> seq<SeriesData>,
                      count: map<string, CountValue> -> nat, res: Response<Body>) returns (outcome: Outcome)
    modifies res
    ensures SortArgument(qs).None? ==>
      outcome == Failed(Thrown("TypeError", "this.queryString.sort.split is not a function")) &&
      unchanged(res)
    ensures SortArgument(qs).Some? && FieldsArgument(qs).None? ==>
      outcome == Failed(Thrown("TypeError", "this.queryString.fields.split is not a function")) &&
      unchanged(res)
    ensures SortArgument(qs).Some? && FieldsArgument(qs).Some? ==>
      var page := execute(ListingQuery(qs, uid));
      outcome == Sent && res.statusCode == Some(200) &&
      res.body == Some(ListBody("success", |page|, page, count(CountFilter(qs, uid))))
  {
    var features := new APIFeatures([Find(OwnedBy(Some(uid)))], qs);
    var f := features.Filter();
    f := f.Search();
    var sorted := f.Sort();
    if sorted.None? {
      return Failed(Thrown("TypeError", "this.queryString.sort.split is not a function"));
    }
    var selected := sorted.value.Field();
    if selected.None? {
      return Failed(Thrown("TypeError", "this.queryString.fields.split is not a function"));
    }
    f := selected.value.Pagination();
    assert features.query == ListingQuery(qs, uid);

    var filter := BuildCountFilter(qs, uid);
    var series := execute(features.query);
    var docCount := count(filter);
    res.Send(200, ListBody("success", |series|, series, docCount));
    outcome := Sent;
  }

  // ---------------------------------------------------------------------------
  // getSeries
  // ---------------------------------------------------------------------------

  /** `getSeries`: the series with that id, if it belongs to the caller. A
      miss passes a string to `next`, which the error handler cannot read. */
  method GetSeries(store: SeriesStore, id: Id, uid: Id, res: Response<Body>) returns (outcome: Outcome)
    modifies res
    ensures FindOwned(store.docs, id, uid).None? ==> outcome == Failed(NotAnError()) && unchanged(res)
    ensures FindOwned(store.docs, id, uid).Some? ==>
      var doc := store.docs[FindOwned(store.docs, id, uid).value];
      outcome == Sent && res.statusCode == Some(200) &&
      res.body == Some(SeriesBody("success", Hidden(doc.data))) &&
      doc.id == id && doc.data.user == Some(uid)
  {
    var found := FindOwned(store.docs, id, uid);
    if found.None? {
      return Failed(NotAnError());
    }
    var doc := store.docs[found.value];
    var series := new Series.Loaded(doc.id, doc.data);
    res.Send(200, SeriesBody("success", series.Data()));
    outcome := Sent;
  }

  // ---------------------------------------------------------------------------
  // createSeries
  // ---------------------------------------------------------------------------

  /** `req.body.date || ""`. */
  function DateText(date: Option<string>): (s: string)
    ensures Truthy(date) ==> s == date.value
    ensures !Truthy(date) ==> s == ""
  {
    if Truthy(date) then date.value else ""
  }

  /** The document `Series.create` receives. */
  function NewSeries(uid: Id, name: Option<string>, url: Option<string>, country: Option<string>,
                     watchingType: Option<string>, dateOfWatching: Option<string>, dateOfAdding: Option<string>,
                     parseDate: string -> Option<int>): SeriesData {
    SeriesData(name, None, url, country, watchingType, Some(uid),
               CastDate(DateText(dateOfWatching), parseDate), CastDate(DateText(dateOfAdding), parseDate), None)
  }

  /** A missing date is no date, never a cast error. */
  lemma MissingDatesAreUnset(uid: Id, name: Option<string>, url: Option<string>, country: Option<string>,
                             watchingType: Option<string>, parseDate: string -> Option<int>)
    ensures var d := NewSeries(uid, name, url, country, watchingType, None, Some(""), parseDate);
      d.dateOfWatching == NoDate && d.dateOfAdding == NoDate &&
      (SeriesValid(d) <==> Truthy(name) && Truthy(url) && Truthy(country) &&
                           watchingType.Some? && watchingType.value in WatchingTypes)
  {
  }

  /**
   * `createSeries`: a series of the caller's with the same name (or any of the
   * caller's series, when no name is given) is a 401 and nothing is created;
   * otherwise the series is created, owned by the caller.
   */
  method CreateSeries(store: SeriesStore, id: Id, uid: Id, name: Option<string>, url: Option<string>,
                      country: Option<string>, watchingType: Option<string>,
                      dateOfWatching: Option<string>, dateOfAdding: Option<string>,
                      parseDate: string -> Option<int>, res: Response<Body>) returns (outcome: Outcome)
    requires store.Valid() && IndexOf(store.docs, id).None?
    modifies store, res
    ensures store.Valid()
    ensures FindByName(old(store.docs), name, uid).Some? ==>
      outcome == Failed(AppError(DuplicateNameMessage, Some(401))) && store.docs == old(store.docs) && unchanged(res)
    ensures FindByName(old(store.docs), name, uid).None? ==>
      var d := NewSeries(uid, name, url, country, watchingType, dateOfWatching, dateOfAdding, parseDate);
      (!SeriesValid(d) ==>
        outcome == Failed(ValidationError("Series", SeriesErrors(d))) && store.docs == old(store.docs) &&
        unchanged(res)) &&
      (SeriesValid(d) ==>
        outcome == Sent &&
        store.docs == old(store.docs) +
          [SeriesDoc(id, d.(slug := Some(store.slugify(name.value)), createdAt := Some(store.createdAtDefault)))] &&
        res.statusCode == Some(201) && res.body == Some(MessageBody("success", CreatedMessage)))
  {
    var watched := DateText(dateOfWatching);
    var added := DateText(dateOfAdding);
    var existing := FindByName(store.docs, name, uid);
    if existing.Some? {
      return Failed(AppError("You already have a series with this name.", Some(401)));
    }
    var created := store.Create(id, SeriesData(name, None, url, country, watchingType, Some(uid),
                                               CastDate(watched, parseDate), CastDate(added, parseDate), None));
    if created.Fail? {
      return Failed(created.err);
    }
    res.Send(201, MessageBody("success", "New series was added successfully."));
    outcome := Sent;
  }

  /** The duplicate check is per user: the same name under another owner does
      not block, a second one under the same owner does. */
  lemma DuplicateNamePerUser(docs: seq<SeriesDoc>, name: string, uid: Id, other: Id, j: nat)
    requires j < |docs| && docs[j].data.name == Some(name) && docs[j].data.user == Some(other)
    requires forall k :: 0 <= k < |docs| && docs[k].data.name == Some(name) ==> docs[k].data.user == Some(other)
    ensures FindByName(docs, Some(name), other).Some?
    ensures other != uid ==> FindByName(docs, Some(name), uid).None?
  {
  }

  /** A watching type outside the enum is answered, in production, with a
      400 that names the value. */
  lemma UnknownWatchingTypeAnswer(d: SeriesData)
    requires Truthy(d.watchingType) && d.watchingType.value !in WatchingTypes
    ensures Respond(ValidationError("Series", SeriesErrors(d)), "production") ==
      Some(ProdResponse(400, "fail", "Invalid input data: " + JoinWith(Messages(SeriesErrors(d)), ". ")))
    ensures EnumMessage(d.watchingType.value) in Messages(SeriesErrors(d))
  {
    UnknownWatchingTypeReported(d);
    MessageShown(SeriesErrors(d), ValidatorError("watchingType", EnumMessage(d.watchingType.value)));
    ProdValidationFailure("Series", SeriesErrors(d));
  }

  /** The duplicate-name answer is an operational 401 shown as it is. */
  lemma DuplicateNameAnswer()
    ensures Respond(AppError(DuplicateNameMessage, Some(401)), "production") ==
      Some(ProdResponse(401, "fail", DuplicateNameMessage))
  {
  }

  // ---------------------------------------------------------------------------
  // updateSeries
  // ---------------------------------------------------------------------------

  /** `series.date = (req.body.date || "") || series.date`. */
  function MergeDate(date: Option<string>, current: DateValue, parseDate: string -> Option<int>): DateValue {
    var s := DateText(date);
    if s != "" then CastDate(s, parseDate) else current
  }

  /** The loaded document after the field assignments of `updateSeries`: each
      field takes the body's value when that is truthy and keeps its own
      otherwise. */
  function Merged(d: SeriesData, name: Option<string>, url: Option<string>, country: Option<string>,
                  watchingType: Option<string>, dateOfWatching: Option<string>, dateOfAdding: Option<string>,
                  parseDate: string -> Option<int>): (r: SeriesData)
    ensures r.name == (if Truthy(name) then name else d.name)
    ensures r.url == (if Truthy(url) then url else d.url)
    ensures r.country == (if Truthy(country) then country else d.country)
    ensures r.watchingType == (if Truthy(watchingType) then watchingType else d.watchingType)
    ensures Truthy(dateOfWatching) ==> r.dateOfWatching == CastDate(dateOfWatching.value, parseDate)
    ensures !Truthy(dateOfWatching) ==> r.dateOfWatching == d.dateOfWatching
    ensures Truthy(dateOfAdding) ==> r.dateOfAdding == CastDate(dateOfAdding.value, parseDate)
    ensures !Truthy(dateOfAdding) ==> r.dateOfAdding == d.dateOfAdding
    ensures r.(name := d.name, url := d.url, country := d.country, watchingType := d.watchingType,
               dateOfWatching := d.dateOfWatching, dateOfAdding := d.dateOfAdding) == d
  {
    d.(name := Or(name, d.name), url := Or(url, d.url), country := Or(country, d.country),
       watchingType := Or(watchingType, d.watchingType),
       dateOfWatching := MergeDate(dateOfWatching, d.dateOfWatching, parseDate),
       dateOfAdding := MergeDate(dateOfAdding, d.dateOfAdding, parseDate))
  }

  /** Applying the same body twice changes nothing more. */
  lemma MergeIdempotent(d: SeriesData, name: Option<string>, url: Option<string>, country: Option<string>,
                        watchingType: Option<string>, dateOfWatching: Option<string>, dateOfAdding: Option<string>,
                        parseDate: string -> Option<int>)
    ensures var once := Merged(d, name, url, country, watchingType, dateOfWatching, dateOfAdding, parseDate);
      Merged(once, name, url, country, watchingType, dateOfWatching, dateOfAdding, parseDate) == once
  {
  }

  /** The record `updateSeries` writes for the stored record `doc`. */
  function Updated(doc: SeriesDoc, name: Option<string>, url: Option<string>, country: Option<string>,
                   watchingType: Option<string>, dateOfWatching: Option<string>, dateOfAdding: Option<string>,
                   parseDate: string -> Option<int>, slugify: string -> string): SeriesData
    requires SeriesValid(Merged(Hidden(doc.data), name, url, country, watchingType, dateOfWatching, dateOfAdding, parseDate))
  {
    var m := Merged(Hidden(doc.data), name, url, country, watchingType, dateOfWatching, dateOfAdding, parseDate);
    m.(slug := Some(slugify(m.name.value)), createdAt := doc.data.createdAt)
  }

  /** A body with no truthy field leaves the stored record as it was: the
      slug is recomputed from the same name and `createdAt`, not loaded, is
      not written. */
  lemma EmptyUpdateChangesNothing(docs: seq<SeriesDoc>, createdAtDefault: int, slugify: string -> string, i: nat,
                                  name: Option<string>, url: Option<string>, country: Option<string>,
                                  watchingType: Option<string>, dateOfWatching: Option<string>,
                                  dateOfAdding: Option<string>, parseDate: string -> Option<int>)
    requires Stored(docs, createdAtDefault, slugify) && i < |docs|
    requires !Truthy(name) && !Truthy(url) && !Truthy(country) && !Truthy(watchingType)
    requires !Truthy(dateOfWatching) && !Truthy(dateOfAdding)
    ensures Merged(Hidden(docs[i].data), name, url, country, watchingType, dateOfWatching, dateOfAdding, parseDate)
      == Hidden(docs[i].data)
    ensures SeriesValid(Merged(Hidden(docs[i].data), name, url, country, watchingType, dateOfWatching, dateOfAdding, parseDate))
    ensures Updated(docs[i], name, url, country, watchingType, dateOfWatching, dateOfAdding, parseDate, slugify)
      == docs[i].data
  {
    assert AtRest(docs[i].data, createdAtDefault, slugify);
  }

  /** The six assignments `series.field = value || series.field`; the dates
      arrive as `req.body.date || ""`. */
  method AssignBody(series: Series, name: Option<string>, url: Option<string>, country: Option<string>,
                    watchingType: Option<string>, watched: string, added: string,
                    parseDate: string -> Option<int>)
    modifies series
    ensures series.Data() == Merged(old(series.Data()), name, url, country, watchingType,
                                    Some(watched), Some(added), parseDate)
  {
    series.name := Or(name, series.name);
    series.url := Or(url, series.url);
    series.country := Or(country, series.country);
    series.watchingType := Or(watchingType, series.watchingType);
    series.dateOfWatching := if watched != "" then CastDate(watched, parseDate) else series.dateOfWatching;
    series.dateOfAdding := if added != "" then CastDate(added, parseDate) else series.dateOfAdding;
  }

  /**
   * `updateSeries`: the series with that id, whoever owns it, gets the body's
   * truthy fields and is saved with validation.
   */
  method UpdateSeries(store: SeriesStore, id: Id, name: Option<string>, url: Option<string>,
                      country: Option<string>, watchingType: Option<string>,
                      dateOfWatching: Option<string>, dateOfAdding: Option<string>,
                      parseDate: string -> Option<int>, res: Response<Body>) returns (outcome: Outcome)
    requires store.Valid()
    modifies store, res
    ensures store.Valid()
    ensures IndexOf(old(store.docs), id).None? ==>
      outcome == Failed(NotAnError()) && store.docs == old(store.docs) && unchanged(res)
    ensures IndexOf(old(store.docs), id).Some? ==>
      var i := IndexOf(old(store.docs), id).value;
      var m := Merged(Hidden(old(store.docs)[i].data), name, url, country, watchingType, dateOfWatching, dateOfAdding, parseDate);
      (!SeriesValid(m) ==>
        outcome == Failed(ValidationError("Series", SeriesErrors(m))) && store.docs == old(store.docs) &&
        unchanged(res)) &&
      (SeriesValid(m) ==>
        var written := Updated(old(store.docs)[i], name, url, country, watchingType, dateOfWatching, dateOfAdding,
                               parseDate, store.slugify);
        outcome == Sent && store.docs == old(store.docs)[i := SeriesDoc(id, written)] &&
        res.statusCode == Some(200) && res.body == Some(EditedBody("success", EditedMessage, Hidden(written))))
  {
    var watched := DateText(dateOfWatching);
    var added := DateText(dateOfAdding);
    var found := IndexOf(store.docs, id);
    if found.None? {
      return Failed(NotAnError());
    }
    var doc := store.docs[found.value];
    var series := new Series.Loaded(doc.id, doc.data);
    AssignBody(series, name, url, country, watchingType, watched, added, parseDate);
    assert series.Data() ==
      Merged(Hidden(doc.data), name, url, country, watchingType, dateOfWatching, dateOfAdding, parseDate);
    outcome := SaveEdited(store, series, res);
  }

  /** `await series.save()` and the answer of `updateSeries`: the edited
      document, validated and slugged, replaces the stored record. */
  method SaveEdited(store: SeriesStore, series: Series, res: Response<Body>) returns (outcome: Outcome)
    requires store.Valid() && IndexOf(store.docs, series.id).Some?
    modifies store, series, res
    ensures store.Valid()
    ensures !SeriesValid(old(series.Data())) ==>
      outcome == Failed(ValidationError("Series", SeriesErrors(old(series.Data())))) && store.docs == old(store.docs) &&
      unchanged(res)
    ensures SeriesValid(old(series.Data())) ==>
      var i := IndexOf(old(store.docs), series.id).value;
      var d := old(series.Data());
      var saved := d.(slug := Some(store.slugify(d.name.value)));
      outcome == Sent && store.docs == old(store.docs)[i := SeriesDoc(series.id, saved.(createdAt := old(store.docs)[i].data.createdAt))] &&
      res.statusCode == Some(200) && res.body == Some(EditedBody("success", EditedMessage, saved))
  {
    var err := store.Save(series);
    if err.Some? {
      return Failed(err.value);
    }
    res.Send(200, EditedBody("success", "Series data edited successfully.", series.Data()));
    outcome := Sent;
  }

  // ---------------------------------------------------------------------------
  // deleteSeries
  // ---------------------------------------------------------------------------

  /** `deleteSeries`: the series with that id, whoever owns it, is removed;
      the answer is 204 whether or not there was one. */
  method DeleteSeries(store: SeriesStore, id: Id, res: Response<Body>) returns (outcome: Outcome)
    requires store.Valid()
    modifies store, res
    ensures store.Valid() && outcome == Sent
    ensures forall d :: d in store.docs <==> d in old(store.docs) && d.id != id
    ensures |store.docs| == |old(store.docs)| - (if IndexOf(old(store.docs), id).Some? then 1 else 0)
    ensures res.statusCode == Some(204) && res.body == Some(DeletedBody("success"))
  {
    store.Delete(id);
    res.Send(204, DeletedBody("success"));
    outcome := Sent;
  }
}
