/**
 * The filter-selection store (src/stores/filter.js): which values are checked under each
 * filter key, the free-text query, and how both become the payload of a page-1 catalogue fetch.
 */
module Filter {
  import opened Wrappers
  import opened Api
  import opened Location
  import FilterUI

  /** The payload key the trimmed free-text query is sent under. */
  const StringKey := "string"
  /** Values whose caption lowercases to this are checked when the taxonomy first arrives. */
  const DefaultLabel := "france"

  // ---------------------------------------------------------------------------
  // String helpers: `String.prototype.trim` and `toLowerCase`

  /** The characters `trim` removes: ECMAScript's WhiteSpace and LineTerminator code points. */
  predicate IsSpace(c: char) {
    var k := c as int;
    || k == 0x09 || k == 0x0A || k == 0x0B || k == 0x0C || k == 0x0D || k == 0x20
    || k == 0xA0 || k == 0x1680 || (0x2000 <= k <= 0x200A) || k == 0x2028 || k == 0x2029
    || k == 0x202F || k == 0x205F || k == 0x3000 || k == 0xFEFF
  }

  predicate AllSpace(s: string) {
    forall i :: 0 <= i < |s| ==> IsSpace(s[i])
  }

  /** Where the white-space run of `s` that starts at index `i` ends. */
  function SpaceRunFrom(s: string, i: nat): (j: nat)
    requires i <= |s|
    ensures i <= j <= |s|
    ensures forall k :: i <= k < j ==> IsSpace(s[k])
    ensures j < |s| ==> !IsSpace(s[j])
    decreases |s| - i
  {
    if i < |s| && IsSpace(s[i]) then SpaceRunFrom(s, i + 1) else i
  }

  /** Where the white-space run of `s` that ends at index `j` starts, going no lower than `lo`. */
  function SpaceRunDownTo(s: string, lo: nat, j: nat): (i: nat)
    requires lo <= j <= |s|
    ensures lo <= i <= j
    ensures forall k :: i <= k < j ==> IsSpace(s[k])
    ensures lo < i ==> !IsSpace(s[i - 1])
    decreases j
  {
    if lo < j && IsSpace(s[j - 1]) then SpaceRunDownTo(s, lo, j - 1) else j
  }

  /**
   * `s.trim()`: `s` without its leading and its trailing white-space run. The result neither
   * starts nor ends with white space, and it is empty exactly when `s` is all white space.
   */
  function Trim(s: string): (r: string)
    ensures r == [] || (!IsSpace(r[0]) && !IsSpace(r[|r| - 1]))
    ensures r == [] <==> AllSpace(s)
  {
    var i := SpaceRunFrom(s, 0);
    s[i..SpaceRunDownTo(s, i, |s|)]
  }

  /** Trimming removes white space only, and only at the two ends. */
  lemma TrimIsInfix(s: string)
    ensures exists i :: 0 <= i <= |s| - |Trim(s)| && s[i..i + |Trim(s)|] == Trim(s)
                        && AllSpace(s[..i]) && AllSpace(s[i + |Trim(s)|..])
  {
    var i := SpaceRunFrom(s, 0);
    var j := SpaceRunDownTo(s, i, |s|);
    assert s[i..i + |Trim(s)|] == Trim(s);
    assert AllSpace(s[..i]) && AllSpace(s[j..]);
  }

  function AsciiLower(c: char): char {
    if 'A' <= c <= 'Z' then (c as int + 32) as char else c
  }

  /**
   * `caption.toLowerCase()`, folding the ASCII letters only: no capital letter is left, and a
   * character changes only when it is a capital, into the letter 32 code points above it.
   */
  function ToLower(s: string): (r: string)
    ensures |r| == |s|
    ensures forall i :: 0 <= i < |r| ==> !('A' <= r[i] <= 'Z')
    ensures forall i :: 0 <= i < |s| && r[i] != s[i] ==> 'A' <= s[i] <= 'Z' && r[i] as int == s[i] as int + 32
  {
    seq(|s|, i requires 0 <= i < |s| => AsciiLower(s[i]))
  }

  /** `caption.toLowerCase() === 'france'`. */
  predicate IsDefaultLabel(caption: string) {
    ToLower(caption) == DefaultLabel
  }

  /** A caption is the default label exactly when it spells "france" in any mix of cases. */
  lemma DefaultLabelSpelling(caption: string)
    ensures IsDefaultLabel(caption) <==>
              |caption| == 6 && forall i :: 0 <= i < 6 ==> caption[i] == DefaultLabel[i] || caption[i] == "FRANCE"[i]
  {
  }

  // ---------------------------------------------------------------------------
  // Selection lists

  /** `selectedFilters[key]`, reading an absent key as the empty list. */
  function Selected(selected: Filters, key: string): seq<string> {
    if key in selected then selected[key] else []
  }

  predicate NoDuplicates(list: seq<string>) {
    forall i, j :: 0 <= i < j < |list| ==> list[i] != list[j]
  }

  /** A checked box: the value is appended unless the list already holds it. */
  function Checked(list: seq<string>, value: string): (r: seq<string>)
    ensures value in r
    ensures value in list ==> r == list
    ensures value !in list ==> r == list + [value]
  {
    if value in list then list else list + [value]
  }

  /** An unchecked box: `list.filter((item) => item !== value)`. */
  function Without(list: seq<string>, value: string): (r: seq<string>)
    ensures value !in r
    ensures |r| <= |list|
    ensures value !in list ==> r == list
  {
    if |list| == 0 then []
    else (if list[0] == value then [] else [list[0]]) + Without(list[1..], value)
  }

  /** Removing a value works piecewise, so the values that remain keep their order. */
  lemma {:induction false} WithoutConcat(a: seq<string>, b: seq<string>, value: string)
    ensures Without(a + b, value) == Without(a, value) + Without(b, value)
  {
    if |a| == 0 {
      assert a + b == b;
    } else {
      var head := if a[0] == value then [] else [a[0]];
      var ab := a + b;
      assert ab[0] == a[0];
      assert ab[1..] == a[1..] + b;
      WithoutConcat(a[1..], b, value);
      calc {
        Without(ab, value);
        head + Without(ab[1..], value);
        head + (Without(a[1..], value) + Without(b, value));
        (head + Without(a[1..], value)) + Without(b, value);
      }
    }
  }

  /** Removing a value drops every occurrence of it and no occurrence of anything else. */
  lemma {:induction false} WithoutCounts(list: seq<string>, value: string)
    ensures multiset(Without(list, value))[value] == 0
    ensures forall x :: x != value ==> multiset(Without(list, value))[x] == multiset(list)[x]
  {
    if list != [] {
      WithoutCounts(list[1..], value);
      assert list == [list[0]] + list[1..];
    }
  }

  /** Unchecking keeps a duplicate-free list duplicate-free. */
  lemma {:induction false} WithoutKeepsNoDuplicates(list: seq<string>, value: string)
    requires NoDuplicates(list)
    ensures NoDuplicates(Without(list, value))
  {
    if list != [] {
      WithoutKeepsNoDuplicates(list[1..], value);
      WithoutCounts(list[1..], value);
      var rest := Without(list[1..], value);
      assert list[0] !in list[1..] by {
        forall k | 0 <= k < |list[1..]| ensures list[1..][k] != list[0] {
          assert list[1..][k] == list[k + 1];
        }
      }
      if list[0] != value {
        assert multiset(list[1..])[list[0]] == 0;
        assert multiset(rest)[list[0]] == 0;
      }
    }
  }

  /** Checking and unchecking both keep a duplicate-free list duplicate-free. */
  lemma UpdatesKeepNoDuplicates(list: seq<string>, value: string)
    requires NoDuplicates(list)
    ensures NoDuplicates(Checked(list, value))
    ensures NoDuplicates(Without(list, value))
  {
    WithoutKeepsNoDuplicates(list, value);
  }

  // ---------------------------------------------------------------------------
  // The request payload

  /**
   * `applyFilters`' payload: a copy of the selections, with `'string'` set to the trimmed query
   * when that is non-empty.
   */
  function Payload(selected: Filters, query: string): (payload: Filters)
    ensures payload.Keys == selected.Keys + (if Trim(query) != "" then {StringKey} else {})
    ensures forall k :: k in selected && k != StringKey ==> payload[k] == selected[k]
    ensures Trim(query) != "" ==> payload[StringKey] == [Trim(query)]
    ensures Trim(query) == "" ==> payload == selected
  {
    var q := Trim(query);
    if q != "" then selected[StringKey := [q]] else selected
  }

  /** The query is sent exactly when it has a character that is not white space. */
  lemma PayloadCarriesQueryIff(selected: Filters, query: string)
    requires StringKey !in selected
    ensures StringKey in Payload(selected, query) <==> !AllSpace(query)
  {
  }

  // ---------------------------------------------------------------------------
  // Default selections made by `init`

  /** The values of `items` whose caption is the default one, in order. */
  function DefaultValues(items: seq<(string, string)>): seq<string>
    decreases |items|
  {
    if items == [] then []
    else DefaultValues(items[..|items| - 1])
         + (if IsDefaultLabel(items[|items| - 1].1) then [items[|items| - 1].0] else [])
  }

  /** The default values listed under `key` anywhere in the taxonomy, in order. */
  function DefaultValuesUnder(taxonomy: Taxonomy, key: string): seq<string>
    decreases |taxonomy|
  {
    if taxonomy == [] then []
    else DefaultValuesUnder(taxonomy[..|taxonomy| - 1], key)
         + (if taxonomy[|taxonomy| - 1].0 == key then DefaultValues(taxonomy[|taxonomy| - 1].1) else [])
  }

  /** The inner `forEach` of `init`, over the first items of one filter key. */
  function PreselectItems(selected: Filters, key: string, items: seq<(string, string)>): Filters
    decreases |items|
  {
    if items == [] then selected
    else
      var s := PreselectItems(selected, key, items[..|items| - 1]);
      var (value, caption) := items[|items| - 1];
      if IsDefaultLabel(caption) then s[key := Selected(s, key) + [value]] else s
  }

  /** The outer `forEach` of `init`, over the first entries of the taxonomy. */
  function Preselect(selected: Filters, taxonomy: Taxonomy): Filters
    decreases |taxonomy|
  {
    if taxonomy == [] then selected
    else
      var (key, items) := taxonomy[|taxonomy| - 1];
      PreselectItems(Preselect(selected, taxonomy[..|taxonomy| - 1]), key, items)
  }

  lemma {:induction false} PreselectItemsEffect(selected: Filters, key: string, items: seq<(string, string)>)
    ensures forall k :: k in PreselectItems(selected, key, items) <==>
                          k in selected || (k == key && DefaultValues(items) != [])
    ensures forall k :: Selected(PreselectItems(selected, key, items), k) ==
                          Selected(selected, k) + (if k == key then DefaultValues(items) else [])
    decreases |items|
  {
    if items != [] {
      var prefix := items[..|items| - 1];
      var (value, caption) := items[|items| - 1];
      var s := PreselectItems(selected, key, prefix);
      PreselectItemsEffect(selected, key, prefix);
      if IsDefaultLabel(caption) {
        assert PreselectItems(selected, key, items) == s[key := Selected(s, key) + [value]];
        assert DefaultValues(items) == DefaultValues(prefix) + [value];
      } else {
        assert PreselectItems(selected, key, items) == s;
        assert DefaultValues(items) == DefaultValues(prefix);
      }
    }
  }

  /**
   * What `init` does to the selections, stated without its loops: each key gains, at its end,
   * the default values listed under it, and a key is created only when it gains at least one.
   */
  lemma {:induction false} PreselectEffect(selected: Filters, taxonomy: Taxonomy)
    ensures forall k :: k in Preselect(selected, taxonomy) <==>
                          k in selected || DefaultValuesUnder(taxonomy, k) != []
    ensures forall k :: Selected(Preselect(selected, taxonomy), k) ==
                          Selected(selected, k) + DefaultValuesUnder(taxonomy, k)
    decreases |taxonomy|
  {
    if taxonomy != [] {
      var prefix := taxonomy[..|taxonomy| - 1];
      var (key, items) := taxonomy[|taxonomy| - 1];
      PreselectEffect(selected, prefix);
      PreselectItemsEffect(Preselect(selected, prefix), key, items);
    }
  }

  // ---------------------------------------------------------------------------
  // The store

  class FilterStore {
    /** The catalogue store this one drives (`useLocationStore()`). */
    const location: LocationStore
    /** The panel-visibility store (`useFilterUIStore()`). */
    const ui: FilterUI.FilterUIStore

    var fetching: bool
    var filters: Taxonomy
    var selectedFilters: Filters
    var isCleared: bool
    var query: string

    constructor (location: LocationStore, ui: FilterUI.FilterUIStore)
      ensures this.location == location && this.ui == ui
      ensures !fetching && filters == [] && selectedFilters == map[] && !isCleared && query == ""
    {
      this.location := location;
      this.ui := ui;
      fetching := false;
      filters := [];
      selectedFilters := map[];
      isCleared := false;
      query := "";
    }

    /** `selectedCount(filterKey)`: how many values are checked under a key. */
    function SelectedCount(key: string): (n: nat)
      reads this
      ensures key in selectedFilters ==> n == |selectedFilters[key]|
      ensures key !in selectedFilters ==> n == 0
    {
      if key in selectedFilters then |selectedFilters[key]| else 0
    }

    /** The request `fetchLocations(1, payload)` sends: a POST of `payload` for page 1. */
    ghost predicate Page1Request(call: Call<Filters>, payload: Filters)
      reads location
    {
      && call.verb == Post
      && call.url == location.env.baseUrl + PagePath(location.env.locationsEndpoint, 1)
      && HeadersFor(call.headers, location.token)
      && call.body == Some(payload)
    }

    /**
     * The catalogue after `fetchLocations(1, payload)` was answered with `pageOutcome`: the
     * payload is recorded; a success shows page 1 with the answer's list and page count, and a
     * failure keeps the list and the counters.
     */
    twostate predicate Page1Fetched(payload: Filters, pageOutcome: Outcome<Page>)
      reads location
    {
      && location.selectedFilters == payload
      && location.token == old(location.token)
      && (Classify(pageOutcome).Ok? ==>
            var data := Classify(pageOutcome).value;
            && location.locationsList == (if data.list.Some? then data.list.value else [])
            && location.currentPage == 1
            && location.totalPages == PageCount(data.count, location.env.locationsPerPage))
      && (Classify(pageOutcome).Err? ==>
            && location.locationsList == old(location.locationsList)
            && location.currentPage == old(location.currentPage)
            && location.totalPages == old(location.totalPages))
    }

    /** `locationStore.fetchLocations(1, payload)`, whose outcome is not awaited. */
    method SendPage1(payload: Filters, pageOutcome: Outcome<Page>) returns (call: Call<Filters>)
      modifies location
      ensures Page1Request(call, payload)
      ensures Page1Fetched(payload, pageOutcome)
    {
      var r;
      call, r := location.FetchLocations(pageOutcome, 1, payload);
    }

    /**
     * `applyFilters()`: sends the payload for page 1. The catalogue fetch is not awaited, so
     * its failure never reaches this store.
     */
    method ApplyFilters(pageOutcome: Outcome<Page>) returns (call: Call<Filters>)
      modifies location
      ensures unchanged(this)
      ensures Page1Request(call, old(Payload(selectedFilters, query)))
      ensures Page1Fetched(old(Payload(selectedFilters, query)), pageOutcome)
    {
      call := SendPage1(Payload(selectedFilters, query), pageOutcome);
    }

    /**
     * The selection update of `handleFilterChange`: the key gets a list if it had none, then
     * the value is added once (checked) or removed everywhere (unchecked).
     */
    method UpdateSelection(key: string, value: string, checked: bool)
      modifies this`selectedFilters
      ensures selectedFilters == old(selectedFilters)[key :=
                if checked then Checked(Selected(old(selectedFilters), key), value)
                else Without(Selected(old(selectedFilters), key), value)]
    {
      if key !in selectedFilters {
        selectedFilters := selectedFilters[key := []];
      }
      if checked {
        if value !in selectedFilters[key] {
          selectedFilters := selectedFilters[key := selectedFilters[key] + [value]];
        }
      } else {
        selectedFilters := selectedFilters[key := Without(selectedFilters[key], value)];
      }
    }

    /**
     * `handleFilterChange(event, filterKey)` for a box whose value is `value` and whose new
     * state is `checked`: the "cleared" mark goes, the selection is updated, and page 1 is
     * fetched again with the new payload.
     */
    method HandleFilterChange(key: string, value: string, checked: bool, pageOutcome: Outcome<Page>)
      returns (call: Call<Filters>)
      modifies this, location
      ensures !isCleared
      ensures selectedFilters == old(selectedFilters)[key :=
                if checked then Checked(Selected(old(selectedFilters), key), value)
                else Without(Selected(old(selectedFilters), key), value)]
      ensures fetching == old(fetching) && filters == old(filters) && query == old(query)
      ensures Page1Request(call, Payload(selectedFilters, query))
      ensures Page1Fetched(Payload(selectedFilters, query), pageOutcome)
    {
      isCleared := false;
      UpdateSelection(key, value, checked);
      assert fetching == old(fetching) && filters == old(filters) && query == old(query);
      call := ApplyFilters(pageOutcome);
    }

    /**
     * `clearFilters()`: drops every selection and the query, marks the store cleared, sends an
     * empty payload for page 1, and hides the filter panel.
     */
    method ClearFilters(pageOutcome: Outcome<Page>) returns (call: Call<Filters>)
      modifies this, location, ui
      ensures selectedFilters == map[] && query == "" && isCleared
      ensures !ui.showContent
      ensures fetching == old(fetching) && filters == old(filters)
      ensures Page1Request(call, map[])
      ensures Page1Fetched(map[], pageOutcome)
    {
      selectedFilters := map[];
      query := "";
      isCleared := true;
      assert Payload(selectedFilters, query) == map[];
      call := ApplyFilters(pageOutcome);
      ui.SetShowContent(false);
    }

    /**
     * The nested `forEach` of `init`: under each filter key, in taxonomy order, every value
     * whose caption lowercases to "france" is pushed onto that key's list (created when absent).
     * Nothing checks for a value already present.
     */
    method CheckDefaults(taxonomy: Taxonomy)
      modifies this`selectedFilters
      ensures selectedFilters == Preselect(old(selectedFilters), taxonomy)
    {
      var i := 0;
      while i < |taxonomy|
        invariant 0 <= i <= |taxonomy|
        invariant selectedFilters == Preselect(old(selectedFilters), taxonomy[..i])
      {
        var (key, items) := taxonomy[i];
        ghost var before := selectedFilters;
        var j := 0;
        while j < |items|
          invariant 0 <= j <= |items|
          invariant selectedFilters == PreselectItems(before, key, items[..j])
        {
          var (value, caption) := items[j];
          if ToLower(caption) == DefaultLabel {
            if key !in selectedFilters {
              selectedFilters := selectedFilters[key := []];
            }
            selectedFilters := selectedFilters[key := selectedFilters[key] + [value]];
          }
          assert items[..j + 1][..j] == items[..j];
          j := j + 1;
        }
        assert items[..|items|] == items;
        assert taxonomy[..i + 1][..i] == taxonomy[..i];
        i := i + 1;
      }
      assert taxonomy[..|taxonomy|] == taxonomy;
    }

    /**
     * `init()`: once, when no fetch is running and no taxonomy is loaded, fetches the taxonomy,
     * checks every value whose caption is "france" under its key, and applies the filters.
     * A failed taxonomy fetch is swallowed; both paths end with `fetching` false.
     */
    method Init(filtersOutcome: Outcome<Taxonomy>, pageOutcome: Outcome<Page>)
      modifies this, location
      ensures query == old(query) && isCleared == old(isCleared)
      ensures old(fetching) || |old(filters)| > 0 ==> unchanged(this) && unchanged(location)
      ensures !old(fetching) && |old(filters)| == 0 ==> !fetching
      ensures !old(fetching) && |old(filters)| == 0 && Classify(filtersOutcome).Err? ==>
                && filters == old(filters)
                && selectedFilters == old(selectedFilters)
                && unchanged(location)
      ensures !old(fetching) && |old(filters)| == 0 && Classify(filtersOutcome).Ok? ==>
                && filters == Classify(filtersOutcome).value
                && selectedFilters == Preselect(old(selectedFilters), filters)
                && Page1Fetched(Payload(selectedFilters, query), pageOutcome)
    {
      if fetching || |filters| > 0 {
        return;
      }
      fetching := true;
      var call, r := location.GetFilters(filtersOutcome);
      if r.Err? {
        fetching := false;
        return;
      }
      filters := r.value;
      CheckDefaults(filters);
      fetching := false;
      assert query == old(query) && isCleared == old(isCleared);
      assert filters == Classify(filtersOutcome).value && selectedFilters == Preselect(old(selectedFilters), filters);
      var sent := ApplyFilters(pageOutcome);
    }
  }
}
