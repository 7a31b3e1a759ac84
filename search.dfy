/** The dashboard's stock search: the guard on short terms, the classification of the
    endpoint's reply, the normalisation of hits into results with a symbol taken from
    their URL, and the navigation to a selected company. */
module Search {
  import opened Common

  /** The `id` of a hit as JSON gives it: `null`, absent, or a value. */
  datatype Ident = NullId | NoId | IdValue(n: int)

  /** One element of the search endpoint's JSON array. */
  datatype Hit = Hit(id: Ident, name: string, url: string)

  /** How a settled request is handled: a failure (a thrown `fetch`, a non-ok status, an
      unreadable body, or an element that makes the filter or the map throw), a body that
      is not an array, or an array of hits that normalises without throwing. */
  datatype Reply = Failed | NotArray | Ok(hits: seq<Hit>)

  /** One element of the endpoint's JSON array: `null`, or a value whose `id`, `name` and
      `url` are read. A `url` is `None` when it is absent or not a string; a primitive
      element reads as an object without fields. */
  datatype Element = NullElement | Object(id: Ident, name: string, url: Option<string>)

  /** What the request delivers: a failure, a body that is not an array, or an array. */
  datatype Response = RequestFailed | NotArrayBody | ArrayBody(elements: seq<Element>)

  datatype SearchResult = SearchResult(symbol: string, name: string, id: Ident, url: string)

  const FetchFailedMessage := "Failed to fetch results. Please try again."
  const InvalidFormatMessage := "Invalid response format"
  const NoMatchesMessage := "No stocks found matching your search"

  /** The prefix of a company page's path. */
  const CompanyPrefix := "/company/"

  // ---------------------------------------------------------------------------------
  // `String.prototype.replace` with a string pattern: only the first occurrence goes
  // ---------------------------------------------------------------------------------

  predicate OccursAt(s: string, pat: string, j: nat)
  {
    j + |pat| <= |s| && s[j..j + |pat|] == pat
  }

  /** The first position, from `i` on, at which `pat` occurs in `s`. */
  function IndexOf(s: string, pat: string, i: nat): (r: Option<nat>)
    requires i <= |s|
    ensures r.Some? ==> i <= r.value && OccursAt(s, pat, r.value)
    ensures r.Some? ==> forall j :: i <= j < r.value ==> !OccursAt(s, pat, j)
    ensures r.None? ==> forall j :: i <= j ==> !OccursAt(s, pat, j)
    decreases |s| - i
  {
    if i + |pat| > |s| then None
    else if OccursAt(s, pat, i) then Some(i)
    else IndexOf(s, pat, i + 1)
  }

  /** `s.replace(pat, '')`. */
  function ReplaceFirst(s: string, pat: string): (r: string)
    ensures |r| <= |s|
    ensures IndexOf(s, pat, 0).None? ==> r == s
  {
    match IndexOf(s, pat, 0)
    case None => s
    case Some(i) => s[..i] + s[i + |pat|..]
  }

  /** Replacing removes nothing when `pat` does not occur; otherwise it cuts out the first
      occurrence, and putting `pat` back at that position restores the input. */
  lemma ReplaceFirstSpec(s: string, pat: string)
    ensures (forall j :: !OccursAt(s, pat, j)) ==> ReplaceFirst(s, pat) == s
    ensures IndexOf(s, pat, 0).Some? ==>
              var i := IndexOf(s, pat, 0).value;
              var r := ReplaceFirst(s, pat);
              |r| == |s| - |pat| && r[..i] + pat + r[i..] == s &&
              forall j :: 0 <= j < i ==> !OccursAt(s, pat, j)
  {
    match IndexOf(s, pat, 0)
    case None =>
    case Some(i) =>
      var r := ReplaceFirst(s, pat);
      assert r[..i] == s[..i];
      assert r[i..] == s[i + |pat|..];
      assert s == s[..i] + s[i..i + |pat|] + s[i + |pat|..];
  }

  /** The search meets the first occurrence when everything before it is no occurrence. */
  lemma {:induction false} IndexOfFinds(s: string, pat: string, i: nat, k: nat)
    requires i <= k <= |s| && OccursAt(s, pat, k)
    requires forall j :: i <= j < k ==> !OccursAt(s, pat, j)
    ensures IndexOf(s, pat, i) == Some(k)
    decreases k - i
  {
    if i < k {
      IndexOfFinds(s, pat, i + 1, k);
    }
  }

  /** `company.url.replace('/company/', '').replace('/', '')`. */
  function DeriveSymbol(url: string): (symbol: string)
    ensures |symbol| <= |url|
    ensures IndexOf(url, CompanyPrefix, 0).None? && IndexOf(url, "/", 0).None? ==> symbol == url
  {
    ReplaceFirst(ReplaceFirst(url, CompanyPrefix), "/")
  }

  /** A company URL gives back its symbol, with or without a trailing slash. */
  lemma DeriveSymbolRoundTrip(symbol: string)
    requires '/' !in symbol
    ensures DeriveSymbol(CompanyPrefix + symbol + "/") == symbol
    ensures DeriveSymbol(CompanyPrefix + symbol) == symbol
  {
    SlashlessUnchanged(symbol);
    assert CompanyPrefix + symbol + "/" == CompanyPrefix + (symbol + "/");
    StripPrefix(symbol + "/");
    StripPrefix(symbol);
    assert OccursAt(symbol + "/", "/", |symbol|);
    forall j | 0 <= j < |symbol| ensures !OccursAt(symbol + "/", "/", j) {
      assert (symbol + "/")[j..j + 1][0] == symbol[j];
    }
    IndexOfFinds(symbol + "/", "/", 0, |symbol|);
    assert (symbol + "/")[..|symbol|] == symbol;
    assert (symbol + "/")[|symbol| + 1..] == [];
  }

  /** The company prefix at the front is the first occurrence, and is cut off. */
  lemma StripPrefix(rest: string)
    ensures ReplaceFirst(CompanyPrefix + rest, CompanyPrefix) == rest
  {
    var s := CompanyPrefix + rest;
    assert OccursAt(s, CompanyPrefix, 0) by { assert s[0..|CompanyPrefix|] == CompanyPrefix; }
    assert IndexOf(s, CompanyPrefix, 0) == Some(0);
    assert s[|CompanyPrefix|..] == rest;
  }

  /** A string without a slash has no slash to remove. */
  lemma SlashlessUnchanged(s: string)
    requires '/' !in s
    ensures ReplaceFirst(s, "/") == s
  {
    forall j: nat ensures !OccursAt(s, "/", j) {
      if j + 1 <= |s| { assert s[j..j + 1][0] == s[j]; }
    }
  }

  // ---------------------------------------------------------------------------------
  // Normalisation of the hits
  // ---------------------------------------------------------------------------------

  /** `item.id !== null`: an absent id passes. */
  predicate HasId(hit: Hit)
    ensures hit.id.NoId? ==> HasId(hit)
    ensures hit.id.NullId? ==> !HasId(hit)
  {
    hit.id != NullId
  }

  function Format(hit: Hit): (r: SearchResult)
    ensures r.name == hit.name && r.id == hit.id && r.url == hit.url
    ensures |r.symbol| <= |hit.url|
  {
    SearchResult(DeriveSymbol(hit.url), hit.name, hit.id, hit.url)
  }

  /** `data.filter(item => item.id !== null).map(...)`. */
  function Normalise(hits: seq<Hit>): (r: seq<SearchResult>)
    ensures |r| <= |hits|
  {
    FilterMap(hits, HasId, Format)
  }

  /** The results are exactly the hits whose id is not `null`, in their order, with name,
      id and URL copied and the symbol derived from the URL. */
  lemma NormaliseSpec(hits: seq<Hit>)
    ensures var idx := KeptFrom(hits, HasId, 0);
            var r := Normalise(hits);
            && |r| == |idx| <= |hits|
            && Increasing(idx)
            && (forall k :: 0 <= k < |r| ==>
                  && 0 <= idx[k] < |hits|
                  && hits[idx[k]].id != NullId
                  && r[k].name == hits[idx[k]].name
                  && r[k].id == hits[idx[k]].id
                  && r[k].url == hits[idx[k]].url
                  && r[k].symbol == DeriveSymbol(hits[idx[k]].url))
            && (forall j :: 0 <= j < |hits| && hits[j].id != NullId ==> j in idx)
    ensures Normalise(hits) == [] <==> forall j :: 0 <= j < |hits| ==> hits[j].id == NullId
  {
    FilterMapSelects(hits, HasId, Format);
    var idx := KeptFrom(hits, HasId, 0);
    forall j | 0 <= j < |hits| && hits[j].id != NullId ensures j in idx {
      assert HasId(hits[j]);
    }
    if Normalise(hits) == [] {
      assert |idx| == 0;
    } else {
      assert HasId(hits[idx[0]]);
    }
  }

  // ---------------------------------------------------------------------------------
  // The search panel's state (`searchResults`, `error`, `isLoading`)
  // ---------------------------------------------------------------------------------

  /** `item.id` of a `null` element throws in the filter, and `company.url.replace` of a
      kept element without a string URL throws in the map; either lands in the `catch`. */
  predicate Throws(elements: seq<Element>)
  {
    exists j :: 0 <= j < |elements| &&
      (elements[j].NullElement? || (elements[j].id != NullId && elements[j].url.None?))
  }

  /** An element as a hit; the URL of a filtered-out element is never read. */
  function AsHit(e: Element): Hit
  {
    if e.NullElement? then Hit(NullId, "", "")
    else Hit(e.id, e.name, if e.url.Some? then e.url.value else "")
  }

  /** How the code after `fetch` treats a response: a failure or a throwing element goes
      to the `catch`; an array that normalises cleanly gives one hit per element, carrying
      its id and name, and the URL of every element that passes the filter. */
  function Settle(response: Response): (reply: Reply)
    ensures reply.Failed? <==> response.RequestFailed? || (response.ArrayBody? && Throws(response.elements))
    ensures reply.NotArray? <==> response.NotArrayBody?
    ensures reply.Ok? ==>
              && |reply.hits| == |response.elements|
              && forall j :: 0 <= j < |reply.hits| ==>
                   && response.elements[j].Object?
                   && reply.hits[j].id == response.elements[j].id
                   && reply.hits[j].name == response.elements[j].name
                   && (reply.hits[j].id != NullId ==> response.elements[j].url == Some(reply.hits[j].url))
  {
    match response
    case RequestFailed => Failed
    case NotArrayBody => NotArray
    case ArrayBody(es) =>
      if Throws(es) then Failed
      else Ok(seq(|es|, j requires 0 <= j < |es| => AsHit(es[j])))
  }

  /** The `error` a settled reply leaves, beside `Normalise` for the results. */
  function ReplyError(reply: Reply): (e: string)
    ensures e == "" <==> reply.Ok? && Normalise(reply.hits) != []
  {
    match reply
    case Failed => FetchFailedMessage
    case NotArray => InvalidFormatMessage
    case Ok(hits) => if Normalise(hits) == [] then NoMatchesMessage else ""
  }

  /** `length` of a JavaScript string: its UTF-16 code units, two for a character beyond
      the Basic Multilingual Plane. */
  function CodeUnits(s: string): (n: nat)
    ensures |s| <= n <= 2 * |s|
  {
    if s == [] then 0 else (if s[0] as int >= 0x1_0000 then 2 else 1) + CodeUnits(s[1..])
  }

  /** A string of Basic Multilingual Plane characters has one code unit per character. */
  lemma {:induction false} BmpCodeUnits(s: string)
    requires forall k :: 0 <= k < |s| ==> s[k] as int < 0x1_0000
    ensures CodeUnits(s) == |s|
  {
    if s != [] {
      assert forall k :: 0 <= k < |s[1..]| ==> s[1..][k] == s[k + 1];
      BmpCodeUnits(s[1..]);
    }
  }

  class SearchPanel {
    var searchResults: seq<SearchResult>
    var error: string
    var isLoading: bool

    constructor ()
      ensures searchResults == [] && error == "" && !isLoading
    {
      searchResults := [];
      error := "";
      isLoading := false;
    }

    /** The part of `searchStocks` before the request is awaited. A falsy or one-character
        term clears the results and the error and sends nothing; a longer term shows the
        spinner, clears the error and sends a request. The length is that of the term as
        typed, not trimmed, in UTF-16 code units. */
    method StartSearch(term: string) returns (requested: bool)
      modifies this
      ensures requested <==> CodeUnits(term) >= 2
      ensures !requested ==> searchResults == [] && error == "" && isLoading == old(isLoading)
      ensures requested ==> searchResults == old(searchResults) && error == "" && isLoading
    {
      if term == "" || CodeUnits(term) < 2 {
        searchResults := [];
        error := "";
        requested := false;
        return;
      }
      isLoading := true;
      error := "";
      requested := true;
    }

    /** The part of `searchStocks` after the reply has settled. */
    method FinishSearch(reply: Reply)
      modifies this
      ensures !isLoading
      ensures reply.Ok? ==> searchResults == Normalise(reply.hits)
      ensures !reply.Ok? ==> searchResults == []
      ensures error == (if reply.Ok? && Normalise(reply.hits) != [] then old(error) else ReplyError(reply))
    {
      match reply {
        case Ok(hits) =>
          var formatted := Normalise(hits);
          searchResults := formatted;
          if |formatted| == 0 {
            error := NoMatchesMessage;
          }
        case NotArray =>
          searchResults := [];
          error := InvalidFormatMessage;
        case Failed =>
          error := FetchFailedMessage;
          searchResults := [];
      }
      isLoading := false;
    }

    /** `searchStocks` run to completion for a term whose request delivers `response`. */
    method SearchStocks(term: string, response: Response) returns (requested: bool)
      modifies this
      ensures requested <==> CodeUnits(term) >= 2
      ensures !requested ==> searchResults == [] && error == "" && isLoading == old(isLoading)
      ensures requested ==> !isLoading && error == ReplyError(Settle(response))
      ensures requested ==> searchResults == if Settle(response).Ok? then Normalise(Settle(response).hits) else []
    {
      requested := StartSearch(term);
      if requested {
        FinishSearch(Settle(response));
      }
    }
  }

  /** A term of one character beyond the Basic Multilingual Plane is two code units long,
      so it is sent. */
  method AstralTermIsSent() returns (requested: bool)
    ensures requested
  {
    var panel := new SearchPanel();
    assert CodeUnits("\U{1F600}") == 2;
    requested := panel.StartSearch("\U{1F600}");
  }

  /** A reply whose array holds a `null` anywhere ends with no results and the fetch error. */
  method NullElementFails(before: seq<Element>, after: seq<Element>, term: string) returns (results: seq<SearchResult>, error: string)
    requires CodeUnits(term) >= 2
    ensures results == [] && error == FetchFailedMessage
  {
    var panel := new SearchPanel();
    var es := before + [NullElement] + after;
    assert es[|before|].NullElement?;
    var _ := panel.SearchStocks(term, ArrayBody(es));
    results, error := panel.searchResults, panel.error;
  }

  // ---------------------------------------------------------------------------------
  // Selecting a company (`handleCompanyClick`)
  // ---------------------------------------------------------------------------------

  /** A navigation: the target path and the company handed over in the navigation state. */
  datatype Navigation = Navigation(path: string, companyData: SearchResult)

  function CompanyClick(company: SearchResult): (nav: Navigation)
    ensures nav.companyData == company
    ensures |nav.path| >= |CompanyPrefix| && nav.path[..|CompanyPrefix|] == CompanyPrefix && nav.path[|CompanyPrefix|..] == company.symbol
  {
    Navigation(CompanyPrefix + company.symbol, company)
  }

  /** Selecting a hit whose URL is a company URL leads to that URL without its trailing slash. */
  lemma ClickLeadsToCompanyUrl(hit: Hit, symbol: string)
    requires '/' !in symbol && hit.url == CompanyPrefix + symbol + "/"
    ensures CompanyClick(Format(hit)).path == CompanyPrefix + symbol
  {
    DeriveSymbolRoundTrip(symbol);
  }
}
