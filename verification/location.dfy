/**
 * The catalogue store (src/stores/location.js): the current page of locations, the page
 * counters, and the filter payload of the last fetch.
 */
module Location {
  import opened Wrappers
  import opened Api
  import Config
  import Storage

  /** A filter payload: filter key to the list of selected values. */
  type Filters = map<string, seq<string>>

  /**
   * The server's filter taxonomy in `Object.entries` order: for each filter key, its
   * (value, label) pairs in `Object.entries` order.
   */
  type Taxonomy = seq<(string, seq<(string, string)>)>

  /** One page as the server answers it: `list` may be missing, `count` is the total number of matches. */
  datatype Page = Page(list: Option<seq<Json>>, count: nat)

  function DigitChar(d: nat): char
    requires d < 10
  {
    "0123456789"[d]
  }

  predicate IsDigit(c: char) {
    '0' <= c <= '9'
  }

  /** The decimal text of a page number, as a template literal renders it. */
  function Decimal(n: nat): (s: string)
    ensures |s| > 0
    ensures forall i :: 0 <= i < |s| ==> IsDigit(s[i])
    ensures s[0] == '0' ==> n == 0
    decreases n
  {
    if n < 10 then [DigitChar(n)] else Decimal(n / 10) + [DigitChar(n % 10)]
  }

  /** The number a string of decimal digits denotes. */
  function ParseDecimal(s: string): nat
    requires forall i :: 0 <= i < |s| ==> IsDigit(s[i])
    decreases |s|
  {
    if s == [] then 0
    else
      assert IsDigit(s[|s| - 1]);
      ParseDecimal(s[..|s| - 1]) * 10 + (s[|s| - 1] as int - '0' as int)
  }

  /** Rendering a page number in decimal loses nothing: it reads back as the same number. */
  lemma {:induction false} DecimalRoundTrip(n: nat)
    ensures ParseDecimal(Decimal(n)) == n
    decreases n
  {
    if n >= 10 {
      DecimalRoundTrip(n / 10);
      var s := Decimal(n);
      assert s[..|s| - 1] == Decimal(n / 10);
    }
  }

  /** The route of one page of locations: `${endpoint}/p/${page}`. */
  function PagePath(endpoint: string, page: nat): (path: string)
    ensures |path| > |endpoint| + 3
    ensures path[..|endpoint|] == endpoint
    ensures path[|endpoint|..|endpoint| + 3] == "/p/"
    ensures forall i :: |endpoint| + 3 <= i < |path| ==> IsDigit(path[i])
    ensures ParseDecimal(path[|endpoint| + 3..]) == page
  {
    DecimalRoundTrip(page);
    var path := endpoint + "/p/" + Decimal(page);
    assert path[|endpoint| + 3..] == Decimal(page);
    path
  }

  /** `Math.ceil(count / perPage)`: the fewest pages of `perPage` items that hold `count` items. */
  function PageCount(count: nat, perPage: Config.PosNat): (pages: nat)
    ensures pages * perPage >= count
    ensures count > 0 ==> (pages - 1) * perPage < count
    ensures count == 0 ==> pages == 0
  {
    var q := (count + perPage - 1) / perPage;
    var rem := (count + perPage - 1) % perPage;
    assert count + perPage - 1 == q * perPage + rem;
    q
  }

  /** No smaller number of pages holds `count` items: the page count is exactly the ceiling. */
  lemma PageCountIsLeast(count: nat, perPage: Config.PosNat, pages: nat)
    requires pages * perPage >= count
    ensures PageCount(count, perPage) <= pages
  {
  }

  class LocationStore {
    const env: Config.Env
    /** Read from storage once, when the store is created; nothing updates it afterwards. */
    var token: Option<string>
    var locationsList: seq<Json>
    var currentPage: nat
    var totalPages: nat
    var selectedFilters: Filters

    constructor (env: Config.Env, storage: Storage.LocalStorage)
      ensures this.env == env
      ensures token == Storage.StoredToken(storage.items)
      ensures locationsList == [] && currentPage == 1 && totalPages == 1 && selectedFilters == map[]
    {
      this.env := env;
      token := Storage.StoredToken(storage.items);
      locationsList := [];
      currentPage := 1;
      totalPages := 1;
      selectedFilters := map[];
    }

    /**
     * `fetchLocations(page = 1, filters = {})`. The filters are recorded before the request is
     * made, so a failed request leaves them changed while the list and the page counters keep
     * their old values; the error is re-raised.
     */
    method FetchLocations(outcome: Outcome<Page>, page: nat := 1, filters: Filters := map[])
      returns (call: Call<Filters>, r: Result<()>)
      modifies this
      ensures selectedFilters == filters
      ensures token == old(token)
      ensures call.verb == Post && call.url == env.baseUrl + PagePath(env.locationsEndpoint, page)
      ensures HeadersFor(call.headers, token) && call.body == Some(filters)
      ensures r.Ok? <==> Classify(outcome).Ok?
      ensures r.Err? ==> r.message == Classify(outcome).message
      ensures r.Ok? ==>
                var data := Classify(outcome).value;
                && locationsList == (if data.list.Some? then data.list.value else [])
                && currentPage == page
                && totalPages == PageCount(data.count, env.locationsPerPage)
      ensures r.Err? ==>
                && locationsList == old(locationsList)
                && currentPage == old(currentPage)
                && totalPages == old(totalPages)
    {
      selectedFilters := filters;
      var response, notice;
      call, response, notice := Request(env.baseUrl, Post, PagePath(env.locationsEndpoint, page), token, Some(filters), outcome);
      if response.Err? {
        return call, Err(response.message);
      }
      var data := response.value;
      locationsList := if data.list.Some? then data.list.value else [];
      currentPage := page;
      totalPages := PageCount(data.count, env.locationsPerPage);
      r := Ok(());
    }

    /** `getFilters()`: fetches the filter taxonomy and hands it back as received; no field changes. */
    method GetFilters(outcome: Outcome<Taxonomy>) returns (call: Call<()>, r: Result<Taxonomy>)
      ensures call.verb == Get && call.url == env.baseUrl + env.filtersEndpoint
      ensures HeadersFor(call.headers, token) && call.body == None
      ensures r == Classify(outcome)
    {
      var notice;
      call, r, notice := Request(env.baseUrl, Get, env.filtersEndpoint, token, None, outcome);
    }
  }
}
