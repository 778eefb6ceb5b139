/** The top navigation bar: which link is active, the flag of the selected
    country, and the sign-in state and theme it keeps in browser storage. */
module Navbar {
  import opened Js
  import opened Strings
  import opened Numbers
  import opened Storage

  /** `isActive(href)`: the page itself or a page below it; the explorer is
      also active at the root, which redirects to it. */
  function IsActive(pathname: string, href: string): (active: bool)
    ensures pathname == href ==> active
    ensures !(href == "/explorer" && pathname == "/") ==>
      (active <==> StartsWith(pathname, href) && (|pathname| == |href| || pathname[|href|] == '/'))
  {
    assert StartsWith(pathname, href + "/") <==>
      StartsWith(pathname, href) && |pathname| > |href| && pathname[|href|] == '/' by {
      if StartsWith(pathname, href) && |pathname| > |href| && pathname[|href|] == '/' {
        assert pathname[..|href| + 1] == pathname[..|href|] + [pathname[|href|]];
      }
      if StartsWith(pathname, href + "/") {
        assert pathname[..|href|] == pathname[..|href| + 1][..|href|];
        assert (href + "/")[|href|] == '/';
      }
    }
    assert StartsWith(pathname, href) && |pathname| == |href| ==> pathname == href by {
      if StartsWith(pathname, href) && |pathname| == |href| {
        assert pathname[..|pathname|] == pathname;
      }
    }
    (href == "/explorer" && pathname == "/") || pathname == href || StartsWith(pathname, href + "/")
  }

  /** A link is not active on a page that merely shares its prefix. */
  lemma PrefixIsNotEnough()
    ensures !IsActive("/libraryx", "/library")
    ensures IsActive("/library/doc", "/library")
    ensures IsActive("/", "/explorer") && !IsActive("/", "/library")
  {
    assert |"/libraryx"| != |"/library"|;
    assert "/libraryx"[8] == 'x' && ("/library" + "/")[8] == '/';
    assert "/library/doc"[..9] == "/library/";
  }

  // ---------------------------------------------------------------------------
  // Flags

  datatype CountryEntry = CountryEntry(id: int, short_name: string)

  /** The country table the flags come from. */
  const Countries: seq<CountryEntry> := [
    CountryEntry(26, "PCN"), CountryEntry(14, "VUT"), CountryEntry(13, "SLB"), CountryEntry(12, "WSM"),
    CountryEntry(10, "PLW"), CountryEntry(8, "NRU"), CountryEntry(2, "FJI"), CountryEntry(1, "PAC"),
    CountryEntry(3, "TON"), CountryEntry(5, "FSM"), CountryEntry(6, "KIR"), CountryEntry(9, "NIU"),
    CountryEntry(11, "PNG"), CountryEntry(4, "TUV"), CountryEntry(7, "MHL"), CountryEntry(16, "COK"),
    CountryEntry(18, "ASM"), CountryEntry(19, "WLF"), CountryEntry(20, "NCL"), CountryEntry(21, "TKL"),
    CountryEntry(22, "PYF"), CountryEntry(23, "MNP"), CountryEntry(24, "GUM")]

  /** `Number(v)` for a scalar; `None` is `NaN`. */
  function NumberOf(v: JsValue): (n: Option<int>)
    ensures v.JNum? ==> n == Some(v.n)
    ensures v.JUndefined? ==> n.None?
    ensures v.JNull? ==> n == Some(0)
    ensures v.JBool? ==> n == Some(if v.b then 1 else 0)
    ensures v.JStr? ==> n == ToNumber(v.s)
  {
    match v
    case JUndefined => None
    case JNull => Some(0)
    case JBool(b) => Some(if b then 1 else 0)
    case JNum(x) => Some(x)
    case JStr(s) => ToNumber(s)
  }

  /** `countriesxxx.find(c => c.id === n)`. */
  function FindCountry(table: seq<CountryEntry>, n: int): (r: Option<CountryEntry>)
    ensures r.None? <==> forall i :: 0 <= i < |table| ==> table[i].id != n
    ensures r.Some? ==> r.value in table && r.value.id == n
    decreases |table|
  {
    if |table| == 0 then None
    else if table[0].id == n then Some(table[0])
    else
      var r := FindCountry(table[1..], n);
      assert forall i :: 1 <= i < |table| ==> table[1..][i - 1] == table[i];
      r
  }

  /** `getCountryFlag(id)`: no flag for an unknown id or for the regional entry. */
  function CountryFlag(id: JsValue): (f: Option<string>)
    ensures f.Some? ==> exists c :: c in Countries && Some(c.id) == NumberOf(id) && c.short_name != "PAC"
                                    && f.value == "/flags/" + c.short_name + ".png"
    ensures NumberOf(id).None? ==> f.None?
  {
    var n := NumberOf(id);
    if n.None? then None else EntryFlag(FindCountry(Countries, n.value))
  }

  function EntryFlag(c: Option<CountryEntry>): (f: Option<string>)
    ensures f.Some? <==> c.Some? && c.value.short_name != "PAC"
    ensures f.Some? ==> f.value == "/flags/" + c.value.short_name + ".png"
  {
    if c.None? || c.value.short_name == "PAC" then None
    else Some("/flags/" + c.value.short_name + ".png")
  }

  /** Fiji has a flag; the regional entry, an id outside the table and a
      non-numeric id have none. */
  lemma FijiFlag(fiji: int)
    requires fiji == 2
    ensures CountryFlag(JNum(fiji)) == Some("/flags/FJI.png")
  {
    assert Countries[6] == CountryEntry(2, "FJI");
    assert forall i :: 0 <= i < 6 ==> Countries[i].id != fiji;
    FindFirst(Countries, fiji, 6);
    FijiEntryFlag();
  }

  lemma FijiEntryFlag()
    ensures EntryFlag(Some(CountryEntry(2, "FJI"))) == Some("/flags/FJI.png")
  {
    var fj := CountryEntry(2, "FJI");
    assert fj.short_name != "PAC" by { assert fj.short_name[0] != "PAC"[0]; }
    assert "/flags/" + fj.short_name + ".png" == "/flags/FJI.png";
  }

  lemma RegionalEntryHasNoFlag()
    ensures CountryFlag(JNum(1)) == None
  {
    assert Countries[7] == CountryEntry(1, "PAC");
    assert forall i :: 0 <= i < 7 ==> Countries[i].id != 1;
    FindFirst(Countries, 1, 7);
  }

  lemma UnknownIdHasNoFlag()
    ensures CountryFlag(JNum(15)) == None
    ensures CountryFlag(JStr("abc")) == None
  {
    assert forall i :: 0 <= i < |Countries| ==> Countries[i].id != 15;
    var t := "abc";
    assert !IsSpace(t[0]) && !IsSpace(t[|t| - 1]);
    assert Trim(t) == t;
    assert !IsDigit(t[0]) && t[0] != '-' && t[0] != '+';
    assert ToNumber(t) == None;
  }

  /** The index of an id in the table, -1 for an id it does not hold. */
  function TableIndex(n: int): int {
    if n == 26 then 0 else if n == 14 then 1 else if n == 13 then 2 else if n == 12 then 3 else if n == 10 then 4 else if n == 8 then 5 else if n == 2 then 6 else if n == 1 then 7 else if n == 3 then 8 else if n == 5 then 9 else if n == 6 then 10 else if n == 9 then 11 else if n == 11 then 12 else if n == 4 then 13 else if n == 7 then 14 else if n == 16 then 15 else if n == 18 then 16 else if n == 19 then 17 else if n == 20 then 18 else if n == 21 then 19 else if n == 22 then 20 else if n == 23 then 21 else if n == 24 then 22 else -1
  }

  /** Each entry's id leads back to its own index, so the ids are distinct. */
  lemma TableIndexOfEntry(k: nat)
    requires k < |Countries|
    ensures TableIndex(Countries[k].id) == k
  {
  }

  /** Every entry of the table is the one `find` returns for its id. */
  lemma FindsEntry(k: nat)
    requires k < |Countries|
    ensures FindCountry(Countries, Countries[k].id) == Some(Countries[k])
  {
    TableIndexOfEntry(k);
    forall j | 0 <= j < k ensures Countries[j].id != Countries[k].id {
      TableIndexOfEntry(j);
    }
    FindFirst(Countries, Countries[k].id, k);
  }

  /** A known country other than the regional entry gets its flag. */
  lemma KnownCountryHasFlag(id: JsValue, k: nat)
    requires k < |Countries| && Countries[k].short_name != "PAC" && NumberOf(id) == Some(Countries[k].id)
    ensures CountryFlag(id) == Some("/flags/" + Countries[k].short_name + ".png")
  {
    FindsEntry(k);
    assert CountryFlag(id) == EntryFlag(FindCountry(Countries, Countries[k].id));
  }

  /** `find` returns the first entry with the id. */
  lemma {:induction false} FindFirst(table: seq<CountryEntry>, n: int, i: nat)
    requires i < |table| && table[i].id == n
    requires forall j :: 0 <= j < i ==> table[j].id != n
    ensures FindCountry(table, n) == Some(table[i])
    decreases i
  {
    if i > 0 {
      assert table[1..][i - 1] == table[i];
      FindFirst(table[1..], n, i - 1);
    }
  }

  /** `a ?? b`: `b` only when `a` is `null` or `undefined`. */
  function Nullish(a: JsValue, b: JsValue): (r: JsValue)
    ensures !(a.JNull? || a.JUndefined?) ==> r == a
    ensures a.JNull? || a.JUndefined? ==> r == b
  {
    if a.JNull? || a.JUndefined? then b else a
  }

  /** The flag shown: the sidebar's selection, else the signed-in user's
      country, else the region stored in the browser; none when the one
      chosen is falsy. */
  function FlagSource(selectedRegionId: JsValue, userCountry: JsValue, persisted: Option<string>): (f: Option<string>)
    ensures !(selectedRegionId.JNull? || selectedRegionId.JUndefined?) ==>
      f == (if Truthy(selectedRegionId) then CountryFlag(selectedRegionId) else None)
    ensures ((selectedRegionId.JNull? || selectedRegionId.JUndefined?) &&
             (userCountry.JNull? || userCountry.JUndefined?) && persisted.None?) ==> f.None?
    ensures ((selectedRegionId.JNull? || selectedRegionId.JUndefined?) &&
             !(userCountry.JNull? || userCountry.JUndefined?)) ==>
      f == (if Truthy(userCountry) then CountryFlag(userCountry) else None)
    ensures ((selectedRegionId.JNull? || selectedRegionId.JUndefined?) &&
             (userCountry.JNull? || userCountry.JUndefined?) && persisted.Some?) ==>
      f == (if persisted.value != "" then CountryFlag(JStr(persisted.value)) else None)
  {
    var stored := if persisted.Some? then JStr(persisted.value) else JNull;
    var chosen := Nullish(Nullish(selectedRegionId, userCountry), stored);
    if Truthy(chosen) then CountryFlag(chosen) else None
  }

  /** A selection that is present wins even when it is falsy: an empty
      selection hides the user's own flag. */
  lemma EmptySelectionHidesFlag(userCountry: JsValue, persisted: Option<string>)
    ensures FlagSource(JStr(""), userCountry, persisted).None?
  {
  }

  // ---------------------------------------------------------------------------
  // Sign-in state in storage

  const LoggedInKey := "auth:isLoggedin"
  const CountryKey := "auth:country"
  const TokenKey := "auth:token"
  const RegionKey := "selectedRegion"
  const ThemeKey := "theme"

  datatype AuthAction = LoginAction | LogoutAction | UpdateCountry(country: JsValue)
                      | UpdateToken(token: JsValue) | SetShortName(shortName: JsValue)

  lemma TruthyText(v: JsValue)
    requires Truthy(v)
    ensures ToJsString(v) != ""
  {
  }

  /** What a successful sign-in leaves in storage. */
  function LoginEntries(e: map<string, string>, countryId: JsValue, token: JsValue): (r: map<string, string>)
    ensures LoggedInKey in r && r[LoggedInKey] == "1"
    ensures Truthy(countryId) ==> CountryKey in r && RegionKey in r
    ensures Truthy(countryId) ==> r[CountryKey] == ToJsString(countryId) && r[RegionKey] == ToJsString(countryId)
    ensures !Truthy(countryId) ==> (CountryKey in r <==> CountryKey in e) && (RegionKey in r <==> RegionKey in e)
    ensures Truthy(token) ==> TokenKey in r && r[TokenKey] == ToJsString(token)
    ensures !Truthy(token) ==> (TokenKey in r <==> TokenKey in e)
    ensures forall k :: k in r && k !in {LoggedInKey, CountryKey, TokenKey, RegionKey} ==> k in e && r[k] == e[k]
    ensures forall k :: k in e ==> k in r
  {
    var e1 := e[LoggedInKey := "1"];
    var e2 := if Truthy(countryId) then e1[CountryKey := ToJsString(countryId)][RegionKey := ToJsString(countryId)] else e1;
    if Truthy(token) then e2[TokenKey := ToJsString(token)] else e2
  }

  /** The sign-in effect for a successful server answer. */
  method OnLoginSuccess(store: Store, countryId: JsValue, token: JsValue) returns (actions: seq<AuthAction>)
    modifies store
    ensures store.entries == LoginEntries(old(store.entries), countryId, token)
    ensures actions == [LoginAction] + (if Truthy(countryId) then [UpdateCountry(countryId)] else [])
                       + (if Truthy(token) then [UpdateToken(token)] else [])
                       + (if Truthy(countryId) then [SetShortName(countryId)] else [])
  {
    actions := [LoginAction];
    if Truthy(countryId) {
      actions := actions + [UpdateCountry(countryId)];
    }
    if Truthy(token) {
      actions := actions + [UpdateToken(token)];
    }
    if Truthy(countryId) {
      actions := actions + [SetShortName(countryId)];
    }
    store.SetItem(LoggedInKey, "1");
    if Truthy(countryId) {
      store.SetItem(CountryKey, ToJsString(countryId));
      store.SetItem(RegionKey, ToJsString(countryId));
    }
    if Truthy(token) {
      store.SetItem(TokenKey, ToJsString(token));
    }
  }

  /** What signing out leaves in storage. */
  function LogoutEntries(e: map<string, string>): (r: map<string, string>)
    ensures LoggedInKey !in r && CountryKey !in r && TokenKey !in r && RegionKey !in r
    ensures forall k :: k !in {LoggedInKey, CountryKey, TokenKey, RegionKey} ==> (k in r <==> k in e) && (k in r ==> r[k] == e[k])
  {
    e - {RegionKey} - {LoggedInKey} - {CountryKey} - {TokenKey}
  }

  /** `handleLogout`'s storage and store effects (the server call is left out). */
  method Logout(store: Store) returns (actions: seq<AuthAction>, flag: Option<string>)
    modifies store
    ensures store.entries == LogoutEntries(old(store.entries))
    ensures actions == [LogoutAction] && flag.None?
  {
    actions := [LogoutAction];
    store.RemoveItem(RegionKey);
    flag := None;
    store.RemoveItem(LoggedInKey);
    store.RemoveItem(CountryKey);
    store.RemoveItem(TokenKey);
  }

  /** The stored sign-in state, read back on mount: only an exact `'1'`
      signs the user in, with the stored country and token when non-empty. */
  function HydrateActions(e: map<string, string>): (actions: seq<AuthAction>)
    ensures |actions| > 0 <==> LoggedInKey in e && e[LoggedInKey] == "1"
  {
    if LoggedInKey in e && e[LoggedInKey] == "1" then
      [LoginAction]
      + (if CountryKey in e && e[CountryKey] != "" then [UpdateCountry(JStr(e[CountryKey]))] else [])
      + (if TokenKey in e && e[TokenKey] != "" then [UpdateToken(JStr(e[TokenKey]))] else [])
    else []
  }

  /** A reload after signing in restores the sign-in, with the country and
      token as text. */
  lemma LoginSurvivesReload(e: map<string, string>, countryId: JsValue, token: JsValue)
    requires Truthy(countryId) && Truthy(token)
    ensures HydrateActions(LoginEntries(e, countryId, token)) ==
      [LoginAction, UpdateCountry(JStr(ToJsString(countryId))), UpdateToken(JStr(ToJsString(token)))]
  {
    TruthyText(countryId);
    TruthyText(token);
  }

  /** A reload after signing out restores nothing. */
  lemma LogoutSurvivesReload(e: map<string, string>)
    ensures HydrateActions(LogoutEntries(e)) == []
  {
  }

  // ---------------------------------------------------------------------------
  // Theme

  /** The theme on mount: a stored `'light'` gives light, anything else dark. */
  function InitialDark(stored: Option<string>): (dark: bool)
    ensures !dark <==> stored == Some("light")
  {
    if stored == Some("dark") then true
    else if stored == Some("light") then false
    else true
  }

  function ThemeName(dark: bool): string {
    if dark then "dark" else "light"
  }

  /** The theme effect: the choice is stored. */
  method ApplyTheme(store: Store, dark: bool)
    modifies store
    ensures store.entries == old(store.entries)[ThemeKey := ThemeName(dark)]
  {
    if dark {
      store.SetItem(ThemeKey, "dark");
    } else {
      store.SetItem(ThemeKey, "light");
    }
  }

  /** The stored theme is the one the next visit starts with. */
  lemma ThemeSurvivesReload(dark: bool)
    ensures InitialDark(Some(ThemeName(dark))) == dark
  {
  }
}
