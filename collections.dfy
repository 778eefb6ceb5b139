/** The dashboard collections page: public and country dashboards merged by
    id, the title search, and the link a dashboard card opens. */
module Collections {
  import opened Js
  import opened Strings
  import opened Numbers
  import opened Uri

  const PluginHost := "https://ocean-plugin.spc.int/"

  /** Where a restricted card's country codes come from. */
  datatype CountryRef = CountryRef(code: JsValue, country_code: JsValue, short_code: JsValue)
  datatype CodeSource = CodeArray(codes: seq<JsValue>) | CountryArray(countries: seq<CountryRef>) | NoCodeArray

  /** A dashboard card with the fields the page reads; `restricted` is
      `restricted === true || is_restricted === true`. */
  datatype Dashboard = Dashboard(id: nat, display_title: Option<string>, restricted: bool,
                                 codes: CodeSource, componentName: string)

  // ---------------------------------------------------------------------------
  // Merging by id

  /** An object with integer keys enumerates them in ascending order, so the
      `dashboardsById` object is a list ordered by strictly increasing id. */
  predicate IdsIncreasing(obj: seq<Dashboard>) {
    forall i, j :: 0 <= i < j < |obj| ==> obj[i].id < obj[j].id
  }

  /** `dashboardsById[d.id] = d`. */
  function Assign(obj: seq<Dashboard>, d: Dashboard): (r: seq<Dashboard>)
    requires IdsIncreasing(obj)
    ensures IdsIncreasing(r)
    ensures forall x :: x in r <==> x == d || (x in obj && x.id != d.id)
    decreases |obj|
  {
    if |obj| == 0 then [d]
    else if obj[0].id == d.id then
      assert forall x :: x in obj[1..] ==> x.id != d.id;
      [d] + obj[1..]
    else if obj[0].id > d.id then [d] + obj
    else
      var rest := Assign(obj[1..], d);
      assert forall x :: x in obj[1..] ==> obj[0].id < x.id;
      assert forall x :: x in obj <==> x == obj[0] || x in obj[1..];
      assert forall x :: x in rest ==> obj[0].id < x.id;
      [obj[0]] + rest
  }

  /** The object after assigning every dashboard in turn. */
  function Merged(ds: seq<Dashboard>): (r: seq<Dashboard>)
    ensures IdsIncreasing(r)
    decreases |ds|
  {
    if |ds| == 0 then [] else Assign(Merged(ds[..|ds| - 1]), ds[|ds| - 1])
  }

  /** The last dashboard in `ds` with id `k`. */
  function LastWithId(ds: seq<Dashboard>, k: nat): (r: Option<Dashboard>)
    ensures r.None? <==> forall i :: 0 <= i < |ds| ==> ds[i].id != k
    ensures r.Some? ==> r.value.id == k && r.value in ds
    decreases |ds|
  {
    if |ds| == 0 then None
    else if ds[|ds| - 1].id == k then Some(ds[|ds| - 1])
    else
      var r := LastWithId(ds[..|ds| - 1], k);
      assert forall i :: 0 <= i < |ds| - 1 ==> ds[..|ds| - 1][i] == ds[i];
      r
  }

  /** The merged list holds, for every id of the input, exactly the last
      dashboard with that id, and nothing else. */
  lemma {:induction false} MergedExact(ds: seq<Dashboard>, x: Dashboard)
    ensures x in Merged(ds) <==> LastWithId(ds, x.id) == Some(x)
    decreases |ds|
  {
    if |ds| > 0 {
      MergedExact(ds[..|ds| - 1], x);
    }
  }

  /** One dashboard per distinct id: no two entries share one. */
  lemma OnePerId(ds: seq<Dashboard>, i: nat, j: nat)
    requires i < j < |Merged(ds)|
    ensures Merged(ds)[i].id != Merged(ds)[j].id
  {
  }

  /** On an id both lists have, the one of the later list wins. */
  lemma {:induction false} LaterListWins(first: seq<Dashboard>, later: seq<Dashboard>, k: nat)
    requires LastWithId(later, k).Some?
    ensures LastWithId(first + later, k) == LastWithId(later, k)
    decreases |later|
  {
    var all := first + later;
    assert all[|all| - 1] == later[|later| - 1];
    if later[|later| - 1].id != k {
      assert all[..|all| - 1] == first + later[..|later| - 1];
      LaterListWins(first, later[..|later| - 1], k);
    }
  }

  /** Country dashboards are fetched only for a logged-in user with a country. */
  predicate UsesCountryDashboards(isLoggedin: bool, country: JsValue) {
    isLoggedin && Truthy(country)
  }

  /** The country dashboards request. */
  function CountryDashboardsUrl(rootPath: string, country: JsValue): string {
    rootPath + "/middleware/api/widget/?format=json&country_id=" + ToJsString(country)
  }

  /** `Authorization: Bearer <token>` when there is a token. */
  function AuthHeader(token: string): (h: Option<string>)
    ensures h.Some? <==> token != ""
    ensures h.Some? ==> h.value == "Bearer " + token
  {
    if token != "" then Some("Bearer " + token) else None
  }

  /** `fetchDashboards` once both responses are in (they are inputs): the
      public list, then the country list when it is used, assigned one by one
      into the object keyed by id; the page shows its values. */
  method MergeDashboards(isLoggedin: bool, country: JsValue, publicDs: seq<Dashboard>, countryDs: seq<Dashboard>)
    returns (projects: seq<Dashboard>)
    ensures var all := publicDs + (if UsesCountryDashboards(isLoggedin, country) then countryDs else []);
      projects == Merged(all)
  {
    var fetched: seq<Dashboard> := [];
    if isLoggedin && Truthy(country) {
      fetched := countryDs;
    }
    var all := publicDs + fetched;
    var byId: seq<Dashboard> := [];
    var i := 0;
    while i < |all|
      invariant 0 <= i <= |all|
      invariant byId == Merged(all[..i])
    {
      MergedSnoc(all, i);
      byId := Assign(byId, all[i]);
      i := i + 1;
    }
    assert all[..i] == all;
    projects := byId;
  }

  /** Assigning the next dashboard extends the merge by one. */
  lemma MergedSnoc(all: seq<Dashboard>, i: nat)
    requires i < |all|
    ensures Merged(all[..i + 1]) == Assign(Merged(all[..i]), all[i])
  {
    var p := all[..i + 1];
    assert p[..|p| - 1] == all[..i];
    assert p[|p| - 1] == all[i];
  }

  /** A logged-in user's country dashboard replaces the public one with the same id. */
  lemma CountryVersionWins(publicDs: seq<Dashboard>, countryDs: seq<Dashboard>, d: Dashboard)
    requires LastWithId(countryDs, d.id) == Some(d)
    ensures d in Merged(publicDs + countryDs)
    ensures forall x :: x in Merged(publicDs + countryDs) && x.id == d.id ==> x == d
  {
    LaterListWins(publicDs, countryDs, d.id);
    MergedExact(publicDs + countryDs, d);
    forall x | x in Merged(publicDs + countryDs) && x.id == d.id
      ensures x == d
    {
      MergedExact(publicDs + countryDs, x);
    }
  }

  // ---------------------------------------------------------------------------
  // Search

  predicate TitleMatches(card: Dashboard, search: string) {
    card.display_title.Some? && card.display_title.value != ""
    && Contains(Lower(card.display_title.value), Lower(search))
  }

  /** `filteredProjects`: the cards with a title containing the search,
      ignoring case, in their order. */
  function FilterProjects(cards: seq<Dashboard>, search: string): (r: seq<Dashboard>)
    ensures |r| <= |cards|
    ensures forall c :: c in r <==> c in cards && TitleMatches(c, search)
    decreases |cards|
  {
    if |cards| == 0 then []
    else
      var rest := FilterProjects(cards[1..], search);
      assert forall c :: c in cards <==> c == cards[0] || c in cards[1..];
      if TitleMatches(cards[0], search) then [cards[0]] + rest else rest
  }

  /** The filter keeps the cards' order and repeats: filtering a
      concatenation filters each part. */
  lemma {:induction false} FilterProjectsAppend(a: seq<Dashboard>, b: seq<Dashboard>, search: string)
    ensures FilterProjects(a + b, search) == FilterProjects(a, search) + FilterProjects(b, search)
    decreases |a|
  {
    if |a| > 0 {
      assert (a + b)[1..] == a[1..] + b;
      FilterProjectsAppend(a[1..], b, search);
    } else {
      assert a + b == b;
    }
  }

  /** An untitled card is never found, whatever the search. */
  lemma UntitledNeverFound(cards: seq<Dashboard>, search: string, c: Dashboard)
    requires c.display_title.None? || c.display_title == Some("")
    ensures c !in FilterProjects(cards, search)
  {
  }

  // ---------------------------------------------------------------------------
  // Opening a card

  /** `Array.prototype.join` writes `null` and `undefined` as empty text. */
  function JoinText(v: JsValue): string {
    if v.JNull? || v.JUndefined? then "" else ToJsString(v)
  }

  function JoinValues(vs: seq<JsValue>): (r: seq<string>)
    ensures |r| == |vs|
    ensures forall i :: 0 <= i < |vs| ==> r[i] == JoinText(vs[i])
  {
    seq(|vs|, i requires 0 <= i < |vs| => JoinText(vs[i]))
  }

  /** `c.code || c.country_code || c.short_code`. */
  function RefCode(c: CountryRef): (v: JsValue)
    ensures Truthy(c.code) ==> v == c.code
    ensures !Truthy(c.code) && Truthy(c.country_code) ==> v == c.country_code
    ensures !Truthy(c.code) && !Truthy(c.country_code) ==> v == c.short_code
  {
    OrElse(OrElse(c.code, c.country_code), c.short_code)
  }

  /** The truthy codes of a countries array, in order. */
  function RefCodes(cs: seq<CountryRef>): (r: seq<JsValue>)
    ensures |r| <= |cs|
    ensures forall i :: 0 <= i < |r| ==> Truthy(r[i])
    ensures forall v :: v in r <==> Truthy(v) && exists c :: c in cs && RefCode(c) == v
    decreases |cs|
  {
    if |cs| == 0 then []
    else
      var rest := RefCodes(cs[1..]);
      assert forall c :: c in cs <==> c == cs[0] || c in cs[1..];
      (if Truthy(RefCode(cs[0])) then [RefCode(cs[0])] else []) + rest
  }

  /** Every truthy code of the countries array is kept, and at its place: the
      codes of a longer array extend those of its head. */
  lemma RefCodesCons(c: CountryRef, cs: seq<CountryRef>)
    ensures RefCodes([c] + cs) == (if Truthy(RefCode(c)) then [RefCode(c)] else []) + RefCodes(cs)
  {
    assert ([c] + cs)[1..] == cs;
  }

  /** A restricted card's country codes: its own code array, otherwise the
      codes of its countries array, otherwise the user's country if it is a
      non-empty string, otherwise none. */
  function CountryCodes(card: Dashboard, country: JsValue): (r: seq<JsValue>)
    ensures card.codes.CodeArray? ==> r == card.codes.codes
    ensures card.codes.CountryArray? ==> r == RefCodes(card.codes.countries)
    ensures card.codes.NoCodeArray? && country.JStr? && country.s != "" ==> r == [country]
    ensures card.codes.NoCodeArray? && !(country.JStr? && country.s != "") ==> r == []
  {
    match card.codes
    case CodeArray(codes) => codes
    case CountryArray(cs) => RefCodes(cs)
    case NoCodeArray => if country.JStr? && country.s != "" then [country] else []
  }

  /** `componentName.replace(/^\//, '')`. */
  function DropLeadingSlash(s: string): (r: string)
    ensures |s| > 0 && s[0] == '/' ==> r == s[1..]
    ensures !(|s| > 0 && s[0] == '/') ==> r == s
  {
    if |s| > 0 && s[0] == '/' then s[1..] else s
  }

  /** The address a restricted card opens, before its query. */
  function RestrictedBase(componentName: string): (b: string)
    ensures '?' !in BeforeFirst(componentName, '?')
    ensures StartsWith(componentName, "http://") || StartsWith(componentName, "https://") ==> b == BeforeFirst(componentName, '?')
    ensures !(StartsWith(componentName, "http://") || StartsWith(componentName, "https://")) ==>
      b == PluginHost + BeforeFirst(DropLeadingSlash(componentName), '?')
  {
    if StartsWith(componentName, "http://") || StartsWith(componentName, "https://") then BeforeFirst(componentName, '?')
    else PluginHost + BeforeFirst(DropLeadingSlash(componentName), '?')
  }

  /** `handleDashboardClick`: the url opened in a new tab, if any. */
  function DashboardClick(componentName: string, card: Dashboard, country: JsValue, token: string): (u: Option<string>)
    ensures componentName == "" ==> u.None?
    ensures componentName != "" && !card.restricted ==> u == Some(componentName)
    ensures componentName != "" && card.restricted ==>
      u == Some(RestrictedBase(componentName) + "?token=" + Encode(token)
                + "&country=" + Encode(Join(",", JoinValues(CountryCodes(card, country)))))
  {
    if componentName == "" then None
    else if card.restricted then
      var countryParam := Encode(Join(",", JoinValues(CountryCodes(card, country))));
      var tokenParam := Encode(token);
      Some(RestrictedBase(componentName) + "?token=" + tokenParam + "&country=" + countryParam)
    else Some(componentName)
  }

  /** The opened address ends its path at the first `?`, so whatever query the
      component name carried is dropped, and the token cannot leak into the
      country parameter. */
  lemma RestrictedQueryIsOurs(componentName: string, card: Dashboard, country: JsValue, token: string)
    requires componentName != "" && card.restricted
    ensures var u := DashboardClick(componentName, card, country, token).value;
      var base := RestrictedBase(componentName);
      StartsWith(u, base + "?token=") && '&' !in Encode(token)
  {
    EncodeHasNoDelimiters(token);
    var head := RestrictedBase(componentName) + "?token=";
    var t := Encode(token);
    var countryParam := Encode(Join(",", JoinValues(CountryCodes(card, country))));
    assert DashboardClick(componentName, card, country, token).value == head + t + "&country=" + countryParam;
    StartsWithPrefix(head, t);
    StartsWithExtend(head + t, head, "&country=");
    StartsWithExtend(head + t + "&country=", head, countryParam);
  }
}
