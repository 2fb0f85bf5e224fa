/** The top-level page state: the fetched links and their tags, the filter
    and sort controls, the add-link modal and the error banner. */
module App {
  import opened Wrappers
  import opened Text
  import opened TagLists
  import Links

  /** A link as the client receives it; `tags` may be missing. */
  datatype Link = Link(
    id: string, url: string, title: string, notes: Option<string>,
    tags: Option<seq<Tag>>, createdAt: string, updatedAt: string)

  /** How a request ended: a 2xx answer carrying `data`, a non-2xx answer,
      or a thrown error with its message. */
  datatype Reply<T> = Ok(data: T) | NotOk | Failed(message: string)

  const FetchFailed := "Failed to fetch links"
  const AddFailed := "Failed to add link"
  const DeleteFailed := "Failed to delete link"
  const UpdateFailed := "Failed to update link"

  /** The filter and sort controls. */
  datatype Filters = Filters(search: string, tags: seq<Tag>, sortBy: string, sortOrder: string)

  /** The controls as the page starts and as Clear Filters leaves them. */
  const Defaults := Filters("", [], "createdAt", "desc")

  /** `hasActiveFilters`: some control differs from its default. */
  function HasActiveFilters(f: Filters): (r: bool)
    ensures r <==> f != Defaults
  {
    f.search != "" || |f.tags| > 0 || f.sortBy != "createdAt" || f.sortOrder != "desc"
  }

  /** The query parameters of the list request, as sent: the sort always,
      the encoded search term when there is one, and the encoded FIRST
      selected tag when any is selected. */
  function FetchParams(f: Filters, enc: string -> string): seq<(string, string)> {
    [("sortBy", f.sortBy), ("sortOrder", f.sortOrder)]
    + (if f.search != "" then [("search", enc(f.search))] else [])
    + (if |f.tags| > 0 then [("tag", enc(f.tags[0]))] else [])
  }

  /** A query string: `?k=v` for the first parameter, `&k=v` for each next. */
  function QueryString(params: seq<(string, string)>): string {
    if params == [] then ""
    else
      var (k, v) := params[|params| - 1];
      QueryString(params[..|params| - 1]) + (if |params| == 1 then "?" else "&") + k + "=" + v
  }

  /** Appending a parameter appends `?k=v` or `&k=v`. */
  lemma QueryStringSnoc(params: seq<(string, string)>, k: string, v: string)
    ensures QueryString(params + [(k, v)]) ==
      QueryString(params) + (if params == [] then "?" else "&") + k + "=" + v
  {
    assert (params + [(k, v)])[..|params|] == params;
  }

  /** The value of the first parameter named `key`. */
  function Lookup(params: seq<(string, string)>, key: string): (r: Option<string>)
    ensures r.None? <==> forall i :: 0 <= i < |params| ==> params[i].0 != key
    ensures r.Some? ==> exists i :: 0 <= i < |params| && params[i] == (key, r.value)
  {
    if params == [] then None
    else if params[0].0 == key then Some(params[0].1)
    else
      var r := Lookup(params[1..], key);
      assert forall i :: 1 <= i < |params| ==> params[i] == params[1..][i - 1];
      r
  }

  /** The list query the server reads from the parameters, each value
      decoded with `dec`. */
  function ServerQuery(params: seq<(string, string)>, dec: string -> string): Links.ListQuery {
    var get := (key: string) => match Lookup(params, key) case None => None case Some(v) => Some(dec(v));
    Links.ListQuery(get("tag"), get("search"), get("limit"), get("offset"), get("sortBy"), get("sortOrder"))
  }

  /** With a decoder that undoes the encoder and leaves the sort values as
      they are, the server reads back exactly the sort, the search term
      when there is one and the first selected tag when any is selected;
      no limit or offset is sent. */
  lemma FetchReachesServer(f: Filters, enc: string -> string, dec: string -> string)
    requires forall s :: dec(enc(s)) == s
    requires dec(f.sortBy) == f.sortBy && dec(f.sortOrder) == f.sortOrder
    ensures ServerQuery(FetchParams(f, enc), dec) == Links.ListQuery(
      if |f.tags| > 0 then Some(f.tags[0]) else None,
      if f.search != "" then Some(f.search) else None,
      None, None, Some(f.sortBy), Some(f.sortOrder))
  {
    var ps := FetchParams(f, enc);
    FetchSendsNoPaging(f, enc);
    FetchSendsSort(f, enc);
    FetchSendsSearch(f, enc);
    FetchSendsTag(f, enc);
  }

  /** Neither `limit` nor `offset` is ever sent. */
  lemma FetchSendsNoPaging(f: Filters, enc: string -> string)
    ensures Lookup(FetchParams(f, enc), "limit") == None
    ensures Lookup(FetchParams(f, enc), "offset") == None
  {
    var ps := FetchParams(f, enc);
    assert forall i :: 0 <= i < |ps| ==> ps[i].0 in ["sortBy", "sortOrder", "search", "tag"];
  }

  /** Both sort parameters are always sent, first and second. */
  lemma FetchSendsSort(f: Filters, enc: string -> string)
    ensures Lookup(FetchParams(f, enc), "sortBy") == Some(f.sortBy)
    ensures Lookup(FetchParams(f, enc), "sortOrder") == Some(f.sortOrder)
  {
    var ps := FetchParams(f, enc);
    assert ps[0] == ("sortBy", f.sortBy) && ps[1] == ("sortOrder", f.sortOrder);
    LookupFirst(ps, "sortOrder", 1);
  }

  /** The search term is sent, encoded, exactly when it is non-empty. */
  lemma FetchSendsSearch(f: Filters, enc: string -> string)
    ensures Lookup(FetchParams(f, enc), "search") ==
      if f.search != "" then Some(enc(f.search)) else None
  {
    var ps := FetchParams(f, enc);
    if f.search != "" {
      assert ps[2] == ("search", enc(f.search));
      LookupFirst(ps, "search", 2);
    } else {
      assert forall i :: 0 <= i < |ps| ==> ps[i].0 in ["sortBy", "sortOrder", "tag"];
    }
  }

  /** The first selected tag is sent, encoded, when any is selected. */
  lemma FetchSendsTag(f: Filters, enc: string -> string)
    ensures Lookup(FetchParams(f, enc), "tag") ==
      if |f.tags| > 0 then Some(enc(f.tags[0])) else None
  {
    var ps := FetchParams(f, enc);
    if |f.tags| > 0 {
      var k := |ps| - 1;
      assert ps[k] == ("tag", enc(f.tags[0]));
      assert forall i :: 0 <= i < k ==> ps[i].0 in ["sortBy", "sortOrder", "search"];
      LookupFirst(ps, "tag", k);
    } else {
      assert forall i :: 0 <= i < |ps| ==> ps[i].0 in ["sortBy", "sortOrder", "search"];
    }
  }

  /** When `key` first appears at `k`, its value there is what is found. */
  lemma {:induction false} LookupFirst(params: seq<(string, string)>, key: string, k: nat)
    requires k < |params| && params[k].0 == key
    requires forall i :: 0 <= i < k ==> params[i].0 != key
    ensures Lookup(params, key) == Some(params[k].1)
  {
    if k > 0 {
      LookupFirst(params[1..], key, k - 1);
    }
  }

  /** Selected tags after the first never reach the server: two filter
      states that agree on everything but the tags after the first send the
      same parameters. */
  lemma OnlyFirstTagFilters(f: Filters, g: Filters, enc: string -> string)
    requires f.search == g.search && f.sortBy == g.sortBy && f.sortOrder == g.sortOrder
    requires f.tags != [] && g.tags != [] && f.tags[0] == g.tags[0]
    ensures FetchParams(f, enc) == FetchParams(g, enc)
  {
  }

  /** The server sorts ascending exactly when the sort order control says
      `asc`, and filters by tag exactly when the first selected tag is
      non-empty. */
  lemma FetchedListQuery(f: Filters, enc: string -> string, dec: string -> string)
    requires forall s :: dec(enc(s)) == s
    requires dec(f.sortBy) == f.sortBy && dec(f.sortOrder) == f.sortOrder
    ensures Links.Order(ServerQuery(FetchParams(f, enc), dec)).dir == Links.Asc <==> f.sortOrder == "asc"
    ensures Links.Given(ServerQuery(FetchParams(f, enc), dec).tag) <==> |f.tags| > 0 && f.tags[0] != ""
    ensures Links.Given(ServerQuery(FetchParams(f, enc), dec).search) <==> f.search != ""
  {
    FetchReachesServer(f, enc, dec);
  }

  /** The tags of a fetched link, none when missing. */
  function TagsOf(link: Link): seq<Tag> {
    if link.tags.Some? then link.tags.value else []
  }

  /** Every tag of every link, in order. */
  function AllTags(data: seq<Link>): seq<Tag> {
    if data == [] then [] else AllTags(data[..|data| - 1]) + TagsOf(data[|data| - 1])
  }

  /** A tag occurs in `AllTags(data)` exactly when some link carries it. */
  lemma {:induction false} AllTagsMembers(data: seq<Link>)
    ensures forall t :: t in AllTags(data) <==> exists i :: 0 <= i < |data| && t in TagsOf(data[i])
  {
    if data != [] {
      var init := data[..|data| - 1];
      AllTagsMembers(init);
      assert forall i :: 0 <= i < |init| ==> data[i] == init[i];
    }
  }

  /** Extending the list: a new element is kept unless already seen. */
  lemma DedupSnoc(xs: seq<Tag>, x: Tag)
    ensures Dedup(xs + [x]) == if x in Dedup(xs) then Dedup(xs) else Dedup(xs) + [x]
  {
    assert (xs + [x])[..|xs|] == xs;
  }

  /** The tags offered by the filter after a fetch: every tag that appears
      on some returned link, each once, in order of first appearance. */
  lemma FetchedTagsSpec(data: seq<Link>)
    ensures forall t :: t in Dedup(AllTags(data)) <==> t in AllTags(data)
    ensures forall t :: t in Dedup(AllTags(data)) <==> exists i :: 0 <= i < |data| && t in TagsOf(data[i])
    ensures Distinct(Dedup(AllTags(data)))
    ensures forall i, j :: 0 <= i < j < |Dedup(AllTags(data))| ==>
      IndexOf(AllTags(data), Dedup(AllTags(data))[i]) < IndexOf(AllTags(data), Dedup(AllTags(data))[j])
  {
    AllTagsMembers(data);
    DedupSpec(AllTags(data));
  }

  /** `${sortBy}-${sortOrder}`: the value of the sort select. */
  function SortValue(sortBy: string, sortOrder: string): string {
    sortBy + "-" + sortOrder
  }

  /** `const [newSortBy, newSortOrder] = value.split('-')`: the second part
      is missing when there is no `-`. */
  function ParseSortValue(value: string): (string, Option<string>) {
    var parts := Split(value, '-');
    (parts[0], if |parts| > 1 then Some(parts[1]) else None)
  }

  /** Splitting the select value gives back the sort column and order when
      neither holds a `-`. */
  lemma SortValueRoundTrip(sortBy: string, sortOrder: string)
    requires '-' !in sortBy && '-' !in sortOrder
    ensures ParseSortValue(SortValue(sortBy, sortOrder)) == (sortBy, Some(sortOrder))
  {
    SplitAt(sortBy, sortOrder, '-');
    SplitNone(sortOrder, '-');
  }

  /** The four options of the sort select. */
  const SortOptions: seq<(string, string)> :=
    [("createdAt", "desc"), ("createdAt", "asc"), ("title", "asc"), ("title", "desc")]

  /** Each offered option survives the select: its value splits back into
      its column and order. */
  lemma SortOptionsRoundTrip()
    ensures forall o :: o in SortOptions ==> ParseSortValue(SortValue(o.0, o.1)) == (o.0, Some(o.1))
  {
    forall o | o in SortOptions ensures ParseSortValue(SortValue(o.0, o.1)) == (o.0, Some(o.1)) {
      assert '-' !in "createdAt" && '-' !in "title" && '-' !in "asc" && '-' !in "desc";
      SortValueRoundTrip(o.0, o.1);
    }
  }

  /** The query string of the two sort parameters. */
  lemma SortQuery(sortBy: string, order: string)
    ensures QueryString([("sortBy", sortBy), ("sortOrder", order)]) ==
      "?sortBy=" + sortBy + "&sortOrder=" + order
  {
    var first := QueryString([("sortBy", sortBy)]);
    assert first == "?sortBy=" + sortBy by {
      QueryStringSnoc([], "sortBy", sortBy);
      assert [] + [("sortBy", sortBy)] == [("sortBy", sortBy)];
      assert "?" + "sortBy" + "=" == "?sortBy=";
    }
    assert QueryString([("sortBy", sortBy), ("sortOrder", order)]) == first + "&sortOrder=" + order by {
      QueryStringSnoc([("sortBy", sortBy)], "sortOrder", order);
      assert [("sortBy", sortBy)] + [("sortOrder", order)] == [("sortBy", sortBy), ("sortOrder", order)];
      assert "&" + "sortOrder" + "=" == "&sortOrder=";
    }
  }

  /** Appending `&k=v` to a URL ending in a non-empty query string
      appends the parameter to that query string. */
  lemma AppendParam(url: string, prefix: string, params: seq<(string, string)>, sep: string, k: string, v: string)
    requires params != [] && url == prefix + QueryString(params)
    requires sep == "&" + k + "="
    ensures url + sep + v == prefix + QueryString(params + [(k, v)])
  {
    QueryStringSnoc(params, k, v);
  }

  /** The request URL of `fetchLinks`, built as the source builds it: the
      sort parameters first, then `&search=` and `&tag=` when present. */
  method FetchUrl(apiUrl: string, f: Filters, enc: string -> string) returns (url: string)
    ensures url == apiUrl + "/links" + QueryString(FetchParams(f, enc))
  {
    var base := apiUrl + "/links";
    url := apiUrl + "/links?sortBy=" + f.sortBy + "&sortOrder=" + f.sortOrder;
    ghost var params := [("sortBy", f.sortBy), ("sortOrder", f.sortOrder)];
    assert url == base + QueryString(params) by {
      SortQuery(f.sortBy, f.sortOrder);
      assert "/links?sortBy=" == "/links" + "?sortBy=";
    }
    if f.search != "" {
      url := AddParam(url, base, params, "&search=", "search", enc(f.search));
      params := params + [("search", enc(f.search))];
    }
    if |f.tags| > 0 {
      url := AddParam(url, base, params, "&tag=", "tag", enc(f.tags[0]));
      params := params + [("tag", enc(f.tags[0]))];
    }
    assert params == FetchParams(f, enc);
  }

  /** `url += sep + value`, one more parameter of the query string. */
  method AddParam(url: string, ghost base: string, ghost params: seq<(string, string)>,
                  sep: string, ghost key: string, value: string) returns (url': string)
    requires url == base + QueryString(params) && params != []
    requires sep == "&" + key + "="
    ensures url' == base + QueryString(params + [(key, value)])
  {
    url' := url + sep + value;
    AppendParam(url, base, params, sep, key, value);
  }

  /** The tags of the first `i + 1` links are those of the first `i`
      followed by those of link `i`. */
  lemma AllTagsStep(data: seq<Link>, i: nat)
    requires i < |data|
    ensures AllTags(data[..i + 1]) == AllTags(data[..i]) + TagsOf(data[i])
  {
    assert data[..i + 1][..i] == data[..i];
  }

  /** One more element of `ts` extends the de-duplicated prefix by it when
      it is new. */
  lemma DedupStep(before: seq<Tag>, ts: seq<Tag>, j: nat)
    requires j < |ts|
    ensures Dedup(before + ts[..j + 1]) ==
      if ts[j] in Dedup(before + ts[..j]) then Dedup(before + ts[..j]) else Dedup(before + ts[..j]) + [ts[j]]
  {
    assert before + ts[..j + 1] == before + ts[..j] + [ts[j]];
    DedupSnoc(before + ts[..j], ts[j]);
  }

  /** Adding each of `ts` to a set that holds the tags seen so far, in
      order, extends the de-duplicated sequence by those tags. */
  method AddEach(seen: seq<Tag>, ghost before: seq<Tag>, ts: seq<Tag>) returns (out: seq<Tag>)
    requires seen == Dedup(before)
    ensures out == Dedup(before + ts)
  {
    out := seen;
    var j := 0;
    assert before + ts[..0] == before;
    while j < |ts|
      invariant 0 <= j <= |ts|
      invariant out == Dedup(before + ts[..j])
    {
      DedupStep(before, ts, j);
      if ts[j] !in out {
        out := out + [ts[j]];
      }
      j := j + 1;
    }
    assert ts[..|ts|] == ts;
  }

  /** The tag collection of `fetchLinks`: every tag of every link is added
      to a set in order, so the result is the tags without repeats, each at
      its first appearance. */
  method CollectTags(data: seq<Link>) returns (seen: seq<Tag>)
    ensures seen == Dedup(AllTags(data))
  {
    seen := [];
    var i := 0;
    while i < |data|
      invariant 0 <= i <= |data|
      invariant seen == Dedup(AllTags(data[..i]))
    {
      AllTagsStep(data, i);
      if data[i].tags.Some? {
        seen := AddEach(seen, AllTags(data[..i]), data[i].tags.value);
      } else {
        assert AllTags(data[..i]) + TagsOf(data[i]) == AllTags(data[..i]);
      }
      i := i + 1;
    }
    assert data[..|data|] == data;
  }


  /** The page state; each React setter is a field write. */
  class AppState {
    var links: seq<Link>
    var allTags: seq<Tag>
    var isAddModalOpen: bool
    var searchTerm: string
    var selectedTags: seq<Tag>
    var isLoading: bool
    var error: Option<string>
    var sortBy: string
    var sortOrder: string

    /** The page starts loading, with no links, default controls, the
        modal closed and no error. */
    constructor ()
      ensures links == [] && allTags == [] && !isAddModalOpen && isLoading && error == None
      ensures CurrentFilters() == Defaults
    {
      links, allTags, isAddModalOpen := [], [], false;
      searchTerm, selectedTags := "", [];
      isLoading, error := true, None;
      sortBy, sortOrder := "createdAt", "desc";
    }

    function CurrentFilters(): Filters
      reads this
    {
      Filters(searchTerm, selectedTags, sortBy, sortOrder)
    }

    method SetSearchTerm(v: string)
      modifies this`searchTerm
      ensures searchTerm == v
    {
      searchTerm := v;
    }

    /** `handleClearFilters`: every control back to its default, so no
        filter is active. */
    method ClearFilters()
      modifies this`searchTerm, this`selectedTags, this`sortBy, this`sortOrder
      ensures CurrentFilters() == Defaults
      ensures !HasActiveFilters(CurrentFilters())
    {
      searchTerm := "";
      selectedTags := [];
      sortBy := "createdAt";
      sortOrder := "desc";
    }

    /** Choosing one of the sort select's options. */
    method SelectSort(value: string)
      requires exists o :: o in SortOptions && value == SortValue(o.0, o.1)
      modifies this`sortBy, this`sortOrder
      ensures SortValue(sortBy, sortOrder) == value
    {
      SortOptionsRoundTrip();
      var (newSortBy, newSortOrder) := ParseSortValue(value);
      sortBy := newSortBy;
      sortOrder := newSortOrder.value;
    }

    /** The start of `fetchLinks`: loading starts, the error is cleared,
        and the request URL is built from the controls, appending one
        parameter at a time. */
    method BeginFetch(apiUrl: string, enc: string -> string) returns (url: string)
      modifies this`isLoading, this`error
      ensures isLoading && error == None
      ensures url == apiUrl + "/links" + QueryString(FetchParams(CurrentFilters(), enc))
    {
      isLoading := true;
      error := None;
      url := FetchUrl(apiUrl, CurrentFilters(), enc);
    }

    /** The end of `fetchLinks`. A 2xx answer replaces the links and
        collects their tags into `allTags` through a set filled link by
        link; a non-2xx answer sets the fetch error and a thrown error its
        message, leaving the links and tags as they were. Loading stops in
        every case. */
    method FinishFetch(reply: Reply<seq<Link>>)
      modifies this`links, this`allTags, this`error, this`isLoading
      ensures !isLoading
      ensures reply.Ok? ==> links == reply.data && allTags == Dedup(AllTags(reply.data)) && error == old(error)
      ensures reply.NotOk? ==> links == old(links) && allTags == old(allTags) && error == Some(FetchFailed)
      ensures reply.Failed? ==> links == old(links) && allTags == old(allTags) && error == Some(reply.message)
    {
      match reply {
        case NotOk =>
          error := Some(FetchFailed);
        case Failed(message) =>
          error := Some(message);
        case Ok(data) =>
          var seen := CollectTags(data);
          links := data;
          allTags := seen;
      }
      isLoading := false;
    }

    method OpenAddModal()
      modifies this`isAddModalOpen
      ensures isAddModalOpen
    {
      isAddModalOpen := true;
    }

    method CloseAddModal()
      modifies this`isAddModalOpen
      ensures !isAddModalOpen
    {
      isAddModalOpen := false;
    }

    /** `handleAddLink` once the POST has settled: success closes the modal
        and asks for a refetch; failure keeps the modal open and sets the
        error. */
    method HandleAddLink(reply: Reply<()>) returns (refetch: bool)
      modifies this`isAddModalOpen, this`error
      ensures refetch <==> reply.Ok?
      ensures reply.Ok? ==> !isAddModalOpen && error == old(error)
      ensures reply.NotOk? ==> isAddModalOpen == old(isAddModalOpen) && error == Some(AddFailed)
      ensures reply.Failed? ==> isAddModalOpen == old(isAddModalOpen) && error == Some(reply.message)
    {
      match reply {
        case Ok(_) =>
          isAddModalOpen := false;
          refetch := true;
        case NotOk =>
          error := Some(AddFailed);
          refetch := false;
        case Failed(message) =>
          error := Some(message);
          refetch := false;
      }
    }

    /** `handleDeleteLink` once the DELETE has settled. */
    method HandleDeleteLink(reply: Reply<()>) returns (refetch: bool)
      modifies this`error
      ensures refetch <==> reply.Ok?
      ensures error == match reply case Ok(_) => old(error) case NotOk => Some(DeleteFailed) case Failed(m) => Some(m)
    {
      refetch := Settle(reply, DeleteFailed);
    }

    /** `handleUpdateLink` once the PATCH has settled. */
    method HandleUpdateLink(reply: Reply<()>) returns (refetch: bool)
      modifies this`error
      ensures refetch <==> reply.Ok?
      ensures error == match reply case Ok(_) => old(error) case NotOk => Some(UpdateFailed) case Failed(m) => Some(m)
    {
      refetch := Settle(reply, UpdateFailed);
    }

    /** The shared `try`/`catch` of the delete and update handlers. */
    method Settle(reply: Reply<()>, failure: string) returns (refetch: bool)
      modifies this`error
      ensures refetch <==> reply.Ok?
      ensures error == match reply case Ok(_) => old(error) case NotOk => Some(failure) case Failed(m) => Some(m)
    {
      match reply {
        case Ok(_) =>
          refetch := true;
        case NotOk =>
          error := Some(failure);
          refetch := false;
        case Failed(message) =>
          error := Some(message);
          refetch := false;
      }
    }
  }
}
