/** The document library page: the documents query the filters build, the
    search that narrows the documents shown, and the links to their media. */
module Library {
  import opened Js
  import opened Strings
  import opened Numbers
  import opened Uri

  const BaseUrl := "https://ocean-library.spc.int"
  const DocumentsUrl := BaseUrl + "/library/documents/"

  /** The filter choice that means no filter. */
  const All := "All"

  /** The query parameters the active filters contribute, in order. */
  function FilterParams(country: string, documentType: string, year: string): (ps: seq<string>)
    ensures |ps| <= 3
  {
    Opt(country != All, "country_id=" + Encode(country)) +
    Opt(documentType != All, "document_type_id=" + Encode(documentType)) +
    Opt(year != All, "year_id=" + Encode(year))
  }

  /** The documents query as the filters mean it: every active filter as a
      parameter, joined by `&`. */
  function FilterQuery(country: string, documentType: string, year: string): string {
    DocumentsUrl + "?" + Join("&", FilterParams(country, documentType, year))
  }

  /** `url.endsWith('&') ? url.slice(0, -1) : url`. */
  function StripAmpersand(url: string): string {
    if EndsWith(url, "&") then url[..|url| - 1] else url
  }

  /** The filtered-documents fetch: the url is built by appending one
      parameter per active filter, each followed by `&` except the year, and
      one trailing `&` is cut. It equals the query the filters mean. No
      request is made while the document type is still `null`. */
  method FilteredDocumentsUrl(country: string, documentType: Option<string>, year: string) returns (url: Option<string>)
    ensures documentType.None? ==> url.None?
    ensures documentType.Some? ==> url == Some(FilterQuery(country, documentType.value, year))
  {
    if documentType.None? {
      return None;
    }
    var dt := documentType.value;
    var u := DocumentsUrl + "?";
    var c := OptAmp(country != All, "country_id=" + Encode(country));
    var d := OptAmp(dt != All, "document_type_id=" + Encode(dt));
    u := u + c;
    u := u + d;
    if year != All {
      u := u + "year_id=" + Encode(year);
    }
    assert u == DocumentsUrl + "?" + c + d + (if year != All then "year_id=" + Encode(year) else "");
    var r := StripAmpersand(u);
    QueryAfterStrip(country, dt, year, u);
    url := Some(r);
  }

  lemma CutLast(x: string)
    ensures StripAmpersand(x + "&") == x
  {
    var u := x + "&";
    assert u[|u| - 1..] == "&";
    assert u[..|u| - 1] == x;
  }

  lemma KeepLast(x: string, py: string)
    requires |py| > 0 && py[|py| - 1] != '&'
    ensures StripAmpersand(x + py) == x + py
  {
    var u := x + py;
    assert u[|u| - 1] == py[|py| - 1];
    assert u[|u| - 1..] == [u[|u| - 1]];
  }

  function Opt(b: bool, p: string): seq<string> {
    if b then [p] else []
  }

  function OptAmp(b: bool, p: string): string {
    if b then p + "&" else ""
  }

  /** The builder's url with a year, the parameters kept abstract: the
      country and type parameters are each followed by `&`, the year is not. */
  lemma AssembleYear(head: string, pc: string, pd: string, py: string, bc: bool, bd: bool)
    requires |py| > 0 && py[|py| - 1] != '&'
    ensures StripAmpersand(head + OptAmp(bc, pc) + OptAmp(bd, pd) + py)
         == head + Join("&", Opt(bc, pc) + Opt(bd, pd) + [py])
  {
    KeepLast(head + OptAmp(bc, pc) + OptAmp(bd, pd), py);
    if bc && bd {
      JoinThree(pc, pd, py);
      assert Opt(bc, pc) + Opt(bd, pd) + [py] == [pc, pd, py];
      assert head + OptAmp(bc, pc) + OptAmp(bd, pd) + py == head + (pc + "&" + pd + "&" + py);
    } else if bc {
      JoinTwo(pc, py);
      assert Opt(bc, pc) + Opt(bd, pd) + [py] == [pc, py];
      assert head + OptAmp(bc, pc) + OptAmp(bd, pd) + py == head + (pc + "&" + py);
    } else if bd {
      JoinTwo(pd, py);
      assert Opt(bc, pc) + Opt(bd, pd) + [py] == [pd, py];
      assert head + OptAmp(bc, pc) + OptAmp(bd, pd) + py == head + (pd + "&" + py);
    } else {
      assert Opt(bc, pc) + Opt(bd, pd) + [py] == [py];
    }
  }

  lemma JoinTwo(a: string, b: string)
    ensures Join("&", [a, b]) == a + "&" + b
  {
    assert [a, b][1..] == [b];
  }

  lemma JoinThree(a: string, b: string, c: string)
    ensures Join("&", [a, b, c]) == a + "&" + b + "&" + c
  {
    assert [a, b, c][1..] == [b, c];
    JoinTwo(b, c);
  }

  /** The builder's url without a year: the trailing `&` is cut, and with no
      filter at all the url ends in `?`. */
  lemma AssembleNoYear(head: string, pc: string, pd: string, bc: bool, bd: bool)
    requires |head| > 0 && head[|head| - 1] == '?'
    ensures StripAmpersand(head + OptAmp(bc, pc) + OptAmp(bd, pd) + "")
         == head + Join("&", Opt(bc, pc) + Opt(bd, pd) + [])
  {
    if bc && bd {
      NoYearTwo(head, pc, pd);
    } else if bc {
      NoYearOne(head, pc);
      assert OptAmp(bd, pd) == "" && Opt(bd, pd) == [];
    } else if bd {
      NoYearOne(head, pd);
      assert OptAmp(bc, pc) == "" && Opt(bc, pc) == [];
    } else {
      NoYearNone(head);
    }
  }

  lemma NoYearTwo(head: string, pc: string, pd: string)
    ensures StripAmpersand(head + OptAmp(true, pc) + OptAmp(true, pd) + "") == head + Join("&", Opt(true, pc) + Opt(true, pd) + [])
  {
    assert Opt(true, pc) + Opt(true, pd) + [] == [pc, pd];
    assert head + OptAmp(true, pc) + OptAmp(true, pd) + "" == (head + pc + "&" + pd) + "&";
    CutLast(head + pc + "&" + pd);
  }

  lemma NoYearOne(head: string, p: string)
    ensures StripAmpersand(head + OptAmp(true, p) + "") == head + Join("&", Opt(true, p) + [])
    ensures StripAmpersand(head + "" + OptAmp(true, p) + "") == head + Join("&", [] + Opt(true, p) + [])
  {
    assert Opt(true, p) + [] == [p] == [] + Opt(true, p) + [];
    assert head + OptAmp(true, p) + "" == (head + p) + "&" == head + "" + OptAmp(true, p) + "";
    CutLast(head + p);
  }

  lemma NoYearNone(head: string)
    requires |head| > 0 && head[|head| - 1] == '?'
    ensures StripAmpersand(head + OptAmp(false, "") + OptAmp(false, "") + "") == head + Join("&", [])
  {
    assert head + OptAmp(false, "") + OptAmp(false, "") + "" == head;
    assert head[|head| - 1..] == [head[|head| - 1]];
  }

  lemma QueryAfterStrip(country: string, dt: string, year: string, u: string)
    requires u == DocumentsUrl + "?" + OptAmp(country != All, "country_id=" + Encode(country))
                 + OptAmp(dt != All, "document_type_id=" + Encode(dt))
                 + (if year != All then "year_id=" + Encode(year) else "")
    ensures StripAmpersand(u) == FilterQuery(country, dt, year)
  {
    var head := DocumentsUrl + "?";
    assert head[|head| - 1] == '?';
    YearParamEnd(year);
    Assemble(head, "country_id=" + Encode(country), "document_type_id=" + Encode(dt),
             "year_id=" + Encode(year), country != All, dt != All, year != All);
  }

  /** The year parameter does not end in `&`. */
  lemma YearParamEnd(year: string)
    ensures var py := "year_id=" + Encode(year); |py| > 0 && py[|py| - 1] != '&'
  {
    var e := Encode(year);
    var py := "year_id=" + e;
    if |e| > 0 {
      assert py[|py| - 1] == e[|e| - 1];
    }
  }

  /** The builder's url for any base ending in `?` and any parameters, the
      year parameter not ending in `&`. */
  lemma Assemble(head: string, pc: string, pd: string, py: string, bc: bool, bd: bool, bAll: bool)
    requires |head| > 0 && head[|head| - 1] == '?'
    requires |py| > 0 && py[|py| - 1] != '&'
    ensures StripAmpersand(head + OptAmp(bc, pc) + OptAmp(bd, pd) + (if bAll then py else ""))
         == head + Join("&", Opt(bc, pc) + Opt(bd, pd) + Opt(bAll, py))
  {
    if bAll {
      AssembleYear(head, pc, pd, py, bc, bd);
    } else {
      AssembleNoYear(head, pc, pd, bc, bd);
    }
  }

  /** With every filter at `All` the query asks for all documents and ends in `?`. */
  lemma UnfilteredQuery()
    ensures FilterQuery(All, All, All) == DocumentsUrl + "?"
  {
  }

  /** The first documents fetch: the first document type's id, unencoded, when
      the catalogue lists any. */
  function InitialDocumentsUrl(firstTypeId: Option<JsValue>): (u: string)
    ensures firstTypeId.None? ==> u == DocumentsUrl
    ensures firstTypeId.Some? ==> u == DocumentsUrl + "?document_type_id=" + ToJsString(firstTypeId.value)
  {
    if firstTypeId.Some? then DocumentsUrl + "?document_type_id=" + ToJsString(firstTypeId.value) else DocumentsUrl
  }

  /** A library document with the fields the page reads. */
  datatype Document = Document(title: string, countryName: string, pdf: string, thumbnail: string)

  predicate Matches(doc: Document, query: string) {
    Contains(Lower(doc.title), Lower(query)) || Contains(Lower(doc.countryName), Lower(query))
  }

  /** `filteredDocuments`: the documents whose title or country name contains
      the query, ignoring case, in their order. */
  function FilterDocuments(docs: seq<Document>, query: string): (r: seq<Document>)
    ensures |r| <= |docs|
    ensures forall d :: d in r <==> d in docs && Matches(d, query)
    decreases |docs|
  {
    if |docs| == 0 then []
    else
      var rest := FilterDocuments(docs[1..], query);
      assert forall d :: d in docs <==> d == docs[0] || d in docs[1..];
      if Matches(docs[0], query) then [docs[0]] + rest else rest
  }

  /** The filter keeps the documents' order and repeats: filtering a
      concatenation filters each part. */
  lemma {:induction false} FilterDocumentsAppend(a: seq<Document>, b: seq<Document>, query: string)
    ensures FilterDocuments(a + b, query) == FilterDocuments(a, query) + FilterDocuments(b, query)
    decreases |a|
  {
    if |a| > 0 {
      assert (a + b)[1..] == a[1..] + b;
      FilterDocumentsAppend(a[1..], b, query);
    } else {
      assert a + b == b;
    }
  }

  /** An empty search shows every document. */
  lemma {:induction false} EmptyQueryKeepsAll(docs: seq<Document>)
    ensures FilterDocuments(docs, "") == docs
    decreases |docs|
  {
    if |docs| > 0 {
      ContainsEmpty(Lower(docs[0].title));
      EmptyQueryKeepsAll(docs[1..]);
    }
  }

  /** `getFullMediaUrl`: absolute links are kept, site paths are put under the library host. */
  function MediaUrl(path: string): (u: string)
    ensures StartsWith(path, "http") ==> u == path
    ensures !StartsWith(path, "http") ==> u == BaseUrl + path
    ensures StartsWith(u, "http")
  {
    assert (BaseUrl + path)[..4] == "http";
    if StartsWith(path, "http") then path else BaseUrl + path
  }

  /** A media link is resolved once: resolving it again changes nothing. */
  lemma MediaUrlIdempotent(path: string)
    ensures MediaUrl(MediaUrl(path)) == MediaUrl(path)
  {
  }
}
