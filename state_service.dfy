/** The web front-end's page-lifetime UI state store: the signed-in user,
    the application version, the jobs grid's column definitions and the
    jobs list's filter and paging parameters. The jobs parameters are seeded
    from the URL query string when the store is created and written back to
    it whenever they are replaced, so that list views can be bookmarked.

    The browser's query string (what `$location.search()` reads and writes)
    is the field `search`. */
module StateService {

  /** A JavaScript value, as far as this store looks into it. */
  datatype Value =
    | Null
    | Bool(b: bool)
    | Num(n: int)
    | Str(s: string)
    | Arr(elems: seq<Value>)
    | Obj(fields: map<string, Value>)

  /** JavaScript truthiness. */
  predicate Truthy(v: Value)
  {
    match v
    case Null => false
    case Bool(b) => b
    case Num(n) => n != 0
    case Str(s) => s != ""
    case Arr(_) => true
    case Obj(_) => true
  }

  /** `query.key`: an absent key reads as a falsy value. */
  function Lookup(query: map<string, Value>, key: string): Value
  {
    if key in query then query[key] else Null
  }

  /** The keys of the jobs parameters object. */
  const JobsParamKeys: set<string> :=
    {"page", "page_size", "started", "ended", "order", "status", "error_category",
     "job_type_id", "job_type_name", "job_type_category", "url"}

  /** The sort order used when the query string gives none. */
  const DefaultOrder: Value := Arr([Str("-last_modified")])

  /** The jobs parameters of a store created with an empty query string. */
  function DefaultJobsParams(defaultStarted: Value, defaultEnded: Value): map<string, Value>
  {
    map["page" := Num(1), "page_size" := Num(25),
        "started" := defaultStarted, "ended" := defaultEnded,
        "order" := DefaultOrder,
        "status" := Null, "error_category" := Null, "job_type_id" := Null,
        "job_type_name" := Null, "job_type_category" := Null, "url" := Null]
  }

  /** A present (truthy) query value, or the fallback. */
  function OrElse(raw: Value, fallback: Value): (v: Value)
    ensures Truthy(raw) ==> v == raw
    ensures !Truthy(raw) ==> v == fallback
  {
    if Truthy(raw) then raw else fallback
  }

  /** The sort order from the query string: a repeated key (an array) is kept
      as it is, a single value becomes a one-element list. */
  function OrderParam(raw: Value): (v: Value)
    ensures v.Arr?
    ensures !Truthy(raw) ==> v == DefaultOrder
    ensures Truthy(raw) && raw.Arr? ==> v == raw
    ensures Truthy(raw) && !raw.Arr? ==> v == Arr([raw])
  {
    if !Truthy(raw) then DefaultOrder
    else if raw.Arr? then raw
    else Arr([raw])
  }

  /** The jobs parameters a new store computes from the query string.
      `parseInt` stands for the browser's integer parse; `defaultStarted`
      and `defaultEnded` for the clock-derived date-range defaults. */
  function InitialJobsParams(query: map<string, Value>, parseInt: Value -> Value,
                             defaultStarted: Value, defaultEnded: Value): (p: map<string, Value>)
    ensures "url" in p && p["url"] == Null
    ensures "order" in p && p["order"].Arr?
  {
    var page := Lookup(query, "page");
    var pageSize := Lookup(query, "page_size");
    var jobTypeId := Lookup(query, "job_type_id");
    map["page" := if Truthy(page) then parseInt(page) else Num(1),
        "page_size" := if Truthy(pageSize) then parseInt(pageSize) else Num(25),
        "started" := OrElse(Lookup(query, "started"), defaultStarted),
        "ended" := OrElse(Lookup(query, "ended"), defaultEnded),
        "order" := OrderParam(Lookup(query, "order")),
        "status" := OrElse(Lookup(query, "status"), Null),
        "error_category" := OrElse(Lookup(query, "error_category"), Null),
        "job_type_id" := if Truthy(jobTypeId) then parseInt(jobTypeId) else Null,
        "job_type_name" := OrElse(Lookup(query, "job_type_name"), Null),
        "job_type_category" := OrElse(Lookup(query, "job_type_category"), Null),
        "url" := Null]
  }

  /** With no usable value in the query string, every parameter takes its
      default: page 1, 25 per page, newest first, no filters. */
  lemma InitialJobsParamsDefaults(query: map<string, Value>, parseInt: Value -> Value,
                                  defaultStarted: Value, defaultEnded: Value)
    requires forall k :: k in JobsParamKeys - {"url"} ==> !Truthy(Lookup(query, k))
    ensures InitialJobsParams(query, parseInt, defaultStarted, defaultEnded)
            == DefaultJobsParams(defaultStarted, defaultEnded)
  {
    assert !Truthy(Lookup(query, "page")) && !Truthy(Lookup(query, "page_size"));
    assert !Truthy(Lookup(query, "job_type_id")) && !Truthy(Lookup(query, "order"));
    assert !Truthy(Lookup(query, "started")) && !Truthy(Lookup(query, "ended"));
    assert !Truthy(Lookup(query, "status")) && !Truthy(Lookup(query, "error_category"));
    assert !Truthy(Lookup(query, "job_type_name")) && !Truthy(Lookup(query, "job_type_category"));
  }

  /** An example of the rule above: the test is on the raw value, so the
      string "0" is parsed (to whatever the parse gives, 0 for the browser's
      parse) instead of falling back to the default. */
  lemma NumericParamsParsed(query: map<string, Value>, parseInt: Value -> Value,
                            defaultStarted: Value, defaultEnded: Value, key: string)
    requires key in {"page", "page_size", "job_type_id"}
    requires key in query && query[key] == Str("0")
    requires parseInt(Str("0")) == Num(0)
    ensures InitialJobsParams(query, parseInt, defaultStarted, defaultEnded)[key] == Num(0)
  {
  }

  /** Page, page size and job type id are each parsed from a truthy query
      value, whatever the other keys hold, and otherwise take their default:
      page 1, 25 per page, no job type. */
  lemma NumericParamsFromQuery(query: map<string, Value>, parseInt: Value -> Value,
                               defaultStarted: Value, defaultEnded: Value, key: string)
    requires key in {"page", "page_size", "job_type_id"}
    ensures var p := InitialJobsParams(query, parseInt, defaultStarted, defaultEnded);
            && key in p
            && (Truthy(Lookup(query, key)) ==> p[key] == parseInt(Lookup(query, key)))
            && (!Truthy(Lookup(query, key)) ==>
                  p[key] == (if key == "page" then Num(1) else if key == "page_size" then Num(25) else Null))
  {
  }

  /** The date-range and text filters take a present query value as it is,
      and otherwise their default (a clock-derived date, or null). */
  lemma TextParamsFromQuery(query: map<string, Value>, parseInt: Value -> Value,
                            defaultStarted: Value, defaultEnded: Value, key: string)
    requires key in {"started", "ended", "status", "error_category", "job_type_name", "job_type_category"}
    ensures var p := InitialJobsParams(query, parseInt, defaultStarted, defaultEnded);
            && key in p
            && (Truthy(Lookup(query, key)) ==> p[key] == Lookup(query, key))
            && (!Truthy(Lookup(query, key)) ==>
                  p[key] == (if key == "started" then defaultStarted else if key == "ended" then defaultEnded else Null))
  {
  }

  /** The query string `page=3&page_size=10&status=RUNNING` gives page 3,
      10 per page and the RUNNING status filter, with every other parameter
      at its default. */
  lemma QueryStringExample(parseInt: Value -> Value, defaultStarted: Value, defaultEnded: Value)
    requires parseInt(Str("3")) == Num(3) && parseInt(Str("10")) == Num(10)
    ensures InitialJobsParams(map["page" := Str("3"), "page_size" := Str("10"), "status" := Str("RUNNING")],
                              parseInt, defaultStarted, defaultEnded)
            == DefaultJobsParams(defaultStarted, defaultEnded)["page" := Num(3)]["page_size" := Num(10)]["status" := Str("RUNNING")]
  {
  }

  /** The jobs parameters always hold exactly the eleven documented keys. */
  lemma InitialJobsParamsKeys(query: map<string, Value>, parseInt: Value -> Value,
                              defaultStarted: Value, defaultEnded: Value)
    ensures InitialJobsParams(query, parseInt, defaultStarted, defaultEnded).Keys == JobsParamKeys
  {
    var p := InitialJobsParams(query, parseInt, defaultStarted, defaultEnded);
    forall k | k in p ensures k in JobsParamKeys {
    }
    forall k | k in JobsParamKeys ensures k in p {
    }
  }

  /** `$location.search(key, value)`: a null value removes the parameter,
      any other value sets it. */
  function SetSearchParam(search: map<string, Value>, key: string, value: Value): (s: map<string, Value>)
    ensures value == Null ==> key !in s
    ensures value != Null ==> key in s && s[key] == value
    ensures forall k :: k != key ==> (k in s <==> k in search) && (k in s ==> s[k] == search[k])
  {
    if value == Null then search - {key} else search[key := value]
  }

  /** The query string after the parameters named in `written` have been
      written from `data` into `search`. */
  function SearchAfter(search: map<string, Value>, data: map<string, Value>, written: set<string>): map<string, Value>
    requires written <= data.Keys
  {
    map k | k in search.Keys + written && (k in written ==> data[k] != Null) ::
      if k in written then data[k] else search[k]
  }

  /** Writing one more parameter extends the written set by that key. */
  lemma SearchAfterStep(search: map<string, Value>, data: map<string, Value>, written: set<string>, key: string)
    requires written <= data.Keys && key in data && key !in written
    ensures SetSearchParam(SearchAfter(search, data, written), key, data[key])
            == SearchAfter(search, data, written + {key})
  {
    var before := SearchAfter(search, data, written);
    var lhs := SetSearchParam(before, key, data[key]);
    var rhs := SearchAfter(search, data, written + {key});
    assert lhs.Keys == rhs.Keys;
    forall k | k in lhs ensures lhs[k] == rhs[k] {
      if k != key {
        assert k in before;
      }
    }
  }

  /** What the query string holds once every parameter of `data` is
      written: the non-null values of `data`, and the earlier values of the
      keys `data` does not mention. */
  lemma SearchAfterAll(search: map<string, Value>, data: map<string, Value>)
    ensures forall k :: k in data && data[k] != Null ==>
              k in SearchAfter(search, data, data.Keys) && SearchAfter(search, data, data.Keys)[k] == data[k]
    ensures forall k :: k in data && data[k] == Null ==> k !in SearchAfter(search, data, data.Keys)
    ensures forall k :: k !in data ==> (k in SearchAfter(search, data, data.Keys) <==> k in search)
    ensures forall k :: k !in data && k in search ==> SearchAfter(search, data, data.Keys)[k] == search[k]
  {
  }

  class Store {
    var search: map<string, Value>
    var user: Value
    var version: Value
    var jobsColDefs: Value
    var jobsParams: map<string, Value>

    /** Reads the query string once to seed the jobs parameters. */
    constructor (search: map<string, Value>, parseInt: Value -> Value,
                 defaultStarted: Value, defaultEnded: Value)
      ensures this.search == search
      ensures user == Obj(map[]) && version == Str("") && jobsColDefs == Arr([])
      ensures jobsParams == InitialJobsParams(search, parseInt, defaultStarted, defaultEnded)
    {
      this.search := search;
      user := Obj(map[]);
      version := Str("");
      jobsColDefs := Arr([]);
      jobsParams := InitialJobsParams(search, parseInt, defaultStarted, defaultEnded);
    }

    function GetUser(): Value
      reads this
    {
      user
    }

    method SetUser(data: Value)
      modifies this
      ensures GetUser() == data
      ensures version == old(version) && jobsColDefs == old(jobsColDefs)
      ensures jobsParams == old(jobsParams) && search == old(search)
    {
      user := data;
    }

    function GetVersion(): Value
      reads this
    {
      version
    }

    method SetVersion(data: Value)
      modifies this
      ensures GetVersion() == data
      ensures user == old(user) && jobsColDefs == old(jobsColDefs)
      ensures jobsParams == old(jobsParams) && search == old(search)
    {
      version := data;
    }

    function GetJobsColDefs(): Value
      reads this
    {
      jobsColDefs
    }

    method SetJobsColDefs(data: Value)
      modifies this
      ensures GetJobsColDefs() == data
      ensures user == old(user) && version == old(version)
      ensures jobsParams == old(jobsParams) && search == old(search)
    {
      jobsColDefs := data;
    }

    function GetJobsParams(): map<string, Value>
      reads this
    {
      jobsParams
    }

    /** Writes every parameter of `data` into the query string, then
        replaces the stored parameters with `data` as a whole (no merge). */
    method SetJobsParams(data: map<string, Value>)
      modifies this
      ensures GetJobsParams() == data
      ensures search == SearchAfter(old(search), data, data.Keys)
      ensures forall k :: k in data && data[k] != Null ==> k in search && search[k] == data[k]
      ensures forall k :: k in data && data[k] == Null ==> k !in search
      ensures forall k :: k !in data ==> (k in search <==> k in old(search))
      ensures forall k :: k !in data && k in search ==> search[k] == old(search)[k]
      ensures user == old(user) && version == old(version) && jobsColDefs == old(jobsColDefs)
    {
      var pending := data.Keys;
      while pending != {}
        invariant pending <= data.Keys
        invariant search == SearchAfter(old(search), data, data.Keys - pending)
        invariant user == old(user) && version == old(version) && jobsColDefs == old(jobsColDefs)
        decreases pending
      {
        var key :| key in pending;
        SearchAfterStep(old(search), data, data.Keys - pending, key);
        search := SetSearchParam(search, key, data[key]);
        assert data.Keys - pending + {key} == data.Keys - (pending - {key});
        pending := pending - {key};
      }
      SearchAfterAll(old(search), data);
      jobsParams := data;
    }
  }

  /** Each setter round-trips through its getter and leaves the other
      fields alone. */
  method AccessorsRoundTrip(store: Store, user: Value, version: Value, colDefs: Value, params: map<string, Value>)
    modifies store
    ensures store.GetUser() == user && store.GetVersion() == version
    ensures store.GetJobsColDefs() == colDefs && store.GetJobsParams() == params
  {
    store.SetUser(user);
    store.SetVersion(version);
    store.SetJobsColDefs(colDefs);
    store.SetJobsParams(params);
  }
}
