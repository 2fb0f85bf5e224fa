/** The `/links` router: the three tables (links, tags, link_tags) as an
    in-memory store, the tag helpers, the list-query builder and the
    POST / GET / PATCH / DELETE handlers. */
module Links {
  import opened Wrappers
  import opened TagLists

  /** A JSON request-body member that must be a string: missing, `null`, or a string. */
  datatype Field = Absent | Null | Str(s: string) {
    /** JavaScript truthiness: a non-empty string. */
    predicate Truthy() { Str? && s != "" }
  }

  /** A row of the `links` table (its key, `id`, is kept apart). `notes` is
      nullable: a PATCH can store `null`. */
  datatype Row = Row(url: string, title: string, notes: Option<string>, createdAt: string, updatedAt: string)

  /** The JSON link object the handlers answer with. */
  datatype LinkObject = LinkObject(
    id: string, url: string, title: string, notes: Option<string>,
    tags: seq<string>, createdAt: string, updatedAt: string)

  datatype Body = One(link: LinkObject) | Many(links: seq<LinkObject>) | Error(message: string) | StorageError | NoContent

  datatype Response = Response(status: int, body: Body)

  const NotFound := "Link not found"
  const MissingFields := "URL and title are required"

  /** The link object for row `row` with key `id` and tag names `tags`. */
  function ObjectOf(id: string, row: Row, tags: seq<string>): LinkObject {
    LinkObject(id, row.url, row.title, row.notes, tags, row.createdAt, row.updatedAt)
  }

  function Elems(xs: seq<string>): set<string> {
    set x | x in xs
  }

  /** The database: `links` keyed by id, `tags` as a map from the unique
      name to the AUTOINCREMENT id (with the next id to hand out), and
      `link_tags` as a set of (link id, tag id) pairs. */
  class Store {
    var links: map<string, Row>
    var tagIds: map<string, int>
    var nextTagId: int
    var linkTags: set<(string, int)>

    /** The tag tables are consistent (see `TablesValid`). Associations
        may name missing links: nothing deletes them. */
    ghost predicate Valid()
      reads this
    {
      TablesValid(Tables())
    }

    constructor ()
      ensures Valid()
      ensures links == map[] && tagIds == map[] && linkTags == {}
      ensures nextTagId == 1
    {
      links, tagIds, nextTagId, linkTags := map[], map[], 1, {};
    }

    /** Names of the tags associated with link `id`: the join of
        `getTagsForLink`. */
    function TagNames(id: string): set<string>
      reads this
    {
      NamesOf(Tables(), id)
    }

    /** `getTagsForLink`: the associated tag names, each once, in the
        (unspecified) order the database returns them. */
    method GetTagsForLink(id: string) returns (names: seq<string>)
      ensures Distinct(names)
      ensures Elems(names) == TagNames(id)
    {
      names := [];
      var rest := TagNames(id);
      while rest != {}
        invariant rest <= TagNames(id)
        invariant forall n :: n in names ==> n in TagNames(id) && n !in rest
        invariant forall n :: n in TagNames(id) ==> n in names || n in rest
        invariant Distinct(names)
        decreases rest
      {
        var n :| n in rest;
        names := names + [n];
        rest := rest - {n};
      }
    }

    /** The tags and link_tags tables with the AUTOINCREMENT counter. */
    function Tables(): TagTables
      reads this
    {
      TagTables(tagIds, nextTagId, linkTags)
    }

    /** One tag of `addTagsToLink` (see `AddOne`). */
    method AddTagToLink(id: string, name: string)
      requires Valid()
      modifies this`tagIds, this`nextTagId, this`linkTags
      ensures Valid()
      ensures Tables() == AddOne(old(Tables()), id, name)
      ensures TagNames(id) == old(TagNames(id)) + {name}
      ensures forall other :: other != id ==> TagNames(other) == old(TagNames(other))
    {
      AddOneSpec(Tables(), id, name);
      if name in tagIds {
        linkTags := linkTags + {(id, tagIds[name])};
      } else {
        var tagId := nextTagId;
        tagIds := tagIds[name := tagId];
        nextTagId := nextTagId + 1;
        linkTags := linkTags + {(id, tagId)};
      }
    }

    /** `addTagsToLink`, processing the tags one after another (see
        `AddOne`). A missing or empty list changes nothing; afterwards link
        `id` carries every supplied name as one tag row each, and no other
        link's tags changed. */
    method AddTagsToLink(id: string, tags: Option<seq<string>>)
      requires Valid()
      modifies this`tagIds, this`nextTagId, this`linkTags
      ensures Valid()
      ensures Tables() == AddAll(old(Tables()), id, tags.GetOr([]))
      ensures tags.None? || tags.value == [] ==> Tables() == old(Tables())
      ensures forall n :: n in old(tagIds) ==> n in tagIds && tagIds[n] == old(tagIds)[n]
      ensures tagIds.Keys == old(tagIds.Keys) + Elems(tags.GetOr([]))
      ensures TagNames(id) == old(TagNames(id)) + Elems(tags.GetOr([]))
      ensures forall other :: other != id ==> TagNames(other) == old(TagNames(other))
    {
      ghost var t0 := Tables();
      if tags.None? || |tags.value| == 0 {
        return;
      }
      var ts := tags.value;
      var i := 0;
      while i < |ts|
        invariant 0 <= i <= |ts|
        invariant Valid()
        invariant AddAll(Tables(), id, ts[i..]) == AddAll(t0, id, ts)
      {
        assert ts[i..] == [ts[i]] + ts[i + 1..];
        AddTagToLink(id, ts[i]);
        i := i + 1;
      }
      assert Tables() == AddAll(t0, id, ts);
      AddAllRows(t0, id, ts);
      AddAllNames(t0, id, ts);
    }

    /** `removeTagsFromLink`: delete every association of link `id`. */
    method RemoveTagsFromLink(id: string)
      requires Valid()
      modifies this`linkTags
      ensures Valid()
      ensures linkTags == set p | p in old(linkTags) && p.0 != id
      ensures TagNames(id) == {}
      ensures forall other :: other != id ==> TagNames(other) == old(TagNames(other))
    {
      linkTags := set p | p in linkTags && p.0 != id;
    }
  }

  /** The JSON body of `POST /links`. */
  datatype CreateBody = CreateBody(url: Field, title: Field, notes: Field, tags: Option<seq<string>>, createdAt: Field)

  /** The JSON body of `PATCH /links/:id`. */
  datatype PatchBody = PatchBody(title: Field, notes: Field, tags: Option<seq<string>>)

  /** `POST /links`. `id` is the fresh uuid and `now` the current time. A
      missing or empty `url` or `title` is refused with 400 and changes
      nothing; an `id` already in use fails the primary key (500). Otherwise
      the row is stored with `notes || ''`, `createdAt || now` and `updatedAt
      = now`, the tags are added, and the answer (201) echoes `tags || []`
      as supplied. */
  method Create(store: Store, body: CreateBody, id: string, now: string) returns (res: Response)
    requires store.Valid()
    modifies store
    ensures store.Valid()
    ensures !body.url.Truthy() || !body.title.Truthy() ==>
      res == Response(400, Error(MissingFields)) && store.links == old(store.links) && store.Tables() == old(store.Tables())
    ensures body.url.Truthy() && body.title.Truthy() && id in old(store.links) ==>
      res == Response(500, StorageError) && store.links == old(store.links) && store.Tables() == old(store.Tables())
    ensures body.url.Truthy() && body.title.Truthy() && id !in old(store.links) ==>
      var row := Row(body.url.s, body.title.s, Some(if body.notes.Truthy() then body.notes.s else ""),
                     if body.createdAt.Truthy() then body.createdAt.s else now, now);
      && store.links == old(store.links)[id := row]
      && store.Tables() == AddAll(old(store.Tables()), id, body.tags.GetOr([]))
      && store.TagNames(id) == old(store.TagNames(id)) + Elems(body.tags.GetOr([]))
      && (forall other :: other != id ==> store.TagNames(other) == old(store.TagNames(other)))
      && res == Response(201, One(ObjectOf(id, row, body.tags.GetOr([]))))
  {
    if !body.url.Truthy() || !body.title.Truthy() {
      return Response(400, Error(MissingFields));
    }
    if id in store.links {
      return Response(500, StorageError);
    }
    var notes := if body.notes.Truthy() then body.notes.s else "";
    var createdAt := if body.createdAt.Truthy() then body.createdAt.s else now;
    var row := Row(body.url.s, body.title.s, Some(notes), createdAt, now);
    store.links := store.links[id := row];
    if body.tags.Some? && |body.tags.value| > 0 {
      store.AddTagsToLink(id, body.tags);
    } else {
      AddAllRows(store.Tables(), id, []);
    }
    var tags := if body.tags.Some? then body.tags.value else [];
    res := Response(201, One(ObjectOf(id, row, tags)));
  }

  /** `GET /links/:id`: 404 exactly when no row has that id; otherwise 200
      with the row and its tag names, each once. */
  method Get(store: Store, id: string) returns (res: Response)
    ensures res.status == 404 <==> id !in store.links
    ensures id !in store.links ==> res == Response(404, Error(NotFound))
    ensures id in store.links ==>
      && res.status == 200 && res.body.One?
      && res.body.link == ObjectOf(id, store.links[id], res.body.link.tags)
      && Distinct(res.body.link.tags) && Elems(res.body.link.tags) == store.TagNames(id)
  {
    if id !in store.links {
      return Response(404, Error(NotFound));
    }
    var tags := store.GetTagsForLink(id);
    res := Response(200, One(ObjectOf(id, store.links[id], tags)));
  }

  /** The row after a PATCH: `title` replaced only when truthy, `notes`
      whenever supplied (`null` included), `updatedAt` refreshed only when
      one of the two was supplied; `url` and `createdAt` never change. */
  function Patched(row: Row, body: PatchBody, now: string): (r: Row)
    ensures r.url == row.url && r.createdAt == row.createdAt
    ensures r.title == (if body.title.Truthy() then body.title.s else row.title)
    ensures body.notes.Absent? ==> r.notes == row.notes
    ensures body.notes.Null? ==> r.notes == None
    ensures body.notes.Str? ==> r.notes == Some(body.notes.s)
    ensures r.updatedAt == (if body.title.Truthy() || !body.notes.Absent? then now else row.updatedAt)
    ensures !body.title.Truthy() && body.notes.Absent? ==> r == row
  {
    if body.title.Truthy() || !body.notes.Absent? then
      var title := if body.title.Truthy() then body.title.s else row.title;
      var notes := match body.notes
        case Absent => row.notes
        case Null => None
        case Str(s) => Some(s);
      Row(row.url, title, notes, row.createdAt, now)
    else row
  }

  /** `PATCH /links/:id`: 404 with no change for an unknown id. Otherwise the
      row is updated (see `Patched`), and supplied `tags` (even `[]`)
      replace the link's tag set by removing every association and adding
      the names again; the answer (200) is the row with its tag names. */
  method Patch(store: Store, id: string, body: PatchBody, now: string) returns (res: Response)
    requires store.Valid()
    modifies store
    ensures store.Valid()
    ensures id !in old(store.links) ==>
      res == Response(404, Error(NotFound)) && store.links == old(store.links) && store.Tables() == old(store.Tables())
    ensures id in old(store.links) ==>
      && store.links == old(store.links)[id := Patched(old(store.links)[id], body, now)]
      && (body.tags.None? ==> store.Tables() == old(store.Tables()))
      && (body.tags.Some? ==> store.TagNames(id) == Elems(body.tags.value))
      && (forall other :: other != id ==> store.TagNames(other) == old(store.TagNames(other)))
      && (forall n :: n in old(store.tagIds) ==> n in store.tagIds && store.tagIds[n] == old(store.tagIds)[n])
      && res.status == 200 && res.body.One?
      && res.body.link == ObjectOf(id, store.links[id], res.body.link.tags)
      && Distinct(res.body.link.tags) && Elems(res.body.link.tags) == store.TagNames(id)
  {
    if id !in store.links {
      return Response(404, Error(NotFound));
    }
    store.links := store.links[id := Patched(store.links[id], body, now)];
    if body.tags.Some? {
      store.RemoveTagsFromLink(id);
      store.AddTagsToLink(id, body.tags);
    }
    var tags := store.GetTagsForLink(id);
    res := Response(200, One(ObjectOf(id, store.links[id], tags)));
  }

  /** `DELETE /links/:id`: 404 exactly when no row was removed, 204
      otherwise. Only the `links` row goes: foreign keys are not enforced,
      so the link's associations stay in `link_tags`. */
  method Delete(store: Store, id: string) returns (res: Response)
    modifies store`links
    ensures res == (if id in old(store.links) then Response(204, NoContent) else Response(404, Error(NotFound)))
    ensures store.links == old(store.links) - {id}
  {
    if id !in store.links {
      return Response(404, Error(NotFound));
    }
    store.links := store.links - {id};
    res := Response(204, NoContent);
  }

  /** A DELETE followed by a GET of the same id answers 404, and the
      deleted link's tag names are still recorded. */
  method DeleteThenGet(store: Store, id: string) returns (deleted: Response, fetched: Response)
    modifies store`links
    ensures deleted.status == 204 <==> id in old(store.links)
    ensures fetched == Response(404, Error(NotFound))
    ensures store.TagNames(id) == old(store.TagNames(id))
  {
    deleted := Delete(store, id);
    fetched := Get(store, id);
  }

  /** `out` lists the links with ids `rows`, in that order, each with its
      tag names once. */
  ghost predicate JoinedWithTags(store: Store, rows: seq<string>, out: seq<LinkObject>)
    reads store
  {
    && |out| == |rows|
    && forall k :: 0 <= k < |rows| ==>
      && rows[k] in store.links
      && out[k] == ObjectOf(rows[k], store.links[rows[k]], out[k].tags)
      && Distinct(out[k].tags) && Elems(out[k].tags) == store.TagNames(rows[k])
  }

  /** The result rows of `GET /links` (their ids, as the database returns
      them) joined with their tag names. */
  method WithTags(store: Store, rows: seq<string>) returns (res: Response)
    requires forall k :: 0 <= k < |rows| ==> rows[k] in store.links
    ensures res.status == 200 && res.body.Many?
    ensures JoinedWithTags(store, rows, res.body.links)
  {
    var out: seq<LinkObject> := [];
    var k := 0;
    while k < |rows|
      invariant 0 <= k <= |rows|
      invariant JoinedWithTags(store, rows[..k], out)
    {
      var tags := store.GetTagsForLink(rows[k]);
      out := out + [ObjectOf(rows[k], store.links[rows[k]], tags)];
      k := k + 1;
    }
    assert rows[..k] == rows;
    res := Response(200, Many(out));
  }

  /** The query-string options of `GET /links`, each missing or a string. */
  datatype ListQuery = ListQuery(
    tag: Option<string>, search: Option<string>, limit: Option<string>, offset: Option<string>,
    sortBy: Option<string>, sortOrder: Option<string>)

  /** JavaScript truthiness of a query-string value. */
  predicate Given(v: Option<string>) {
    v.Some? && v.value != ""
  }

  datatype Direction = Asc | Desc

  /** The pieces of the list statement, in the order they are appended. */
  datatype Piece =
    | SelectLinks          // SELECT DISTINCT links.* FROM links
    | JoinTags             // JOIN link_tags ON links.id = link_tags.link_id JOIN tags ON link_tags.tag_id = tags.id
    | Where                // WHERE
    | And                  // AND
    | TagNameIs            // tags.name = ?
    | SearchMatches        // (links.title LIKE ? OR links.notes LIKE ? OR links.url LIKE ?)
    | OrderBy(column: string, dir: Direction)  // ORDER BY links.<column> ASC|DESC
    | LimitOffset          // LIMIT ? OFFSET ?

  /** A statement parameter: a string, a number, or `parseInt` of a
      query-string value (left uninterpreted). */
  datatype Param = Text(s: string) | Int(n: int) | ParseIntOf(raw: string)

  /** What a `?` placeholder of the statement stands for: the tag name,
      the three LIKE patterns, a `?` that the spliced sort text brought in,
      and the two paging values. */
  datatype Slot = TagName | LikeTitle | LikeNotes | LikeUrl | SortText | Limit | Offset

  /** Number of `?` characters in a string. */
  function QuestionMarks(s: string): nat {
    if s == [] then 0 else (if s[0] == '?' then 1 else 0) + QuestionMarks(s[1..])
  }

  /** `n` placeholders brought in by the sort text. */
  function Repeat(n: nat): (r: seq<Slot>)
    ensures |r| == n && forall i :: 0 <= i < n ==> r[i] == SortText
  {
    if n == 0 then [] else [SortText] + Repeat(n - 1)
  }

  /** The placeholders of one piece, in order. The sort column is pasted
      into the statement text, so every `?` it holds is a placeholder too. */
  function PieceSlots(p: Piece): seq<Slot> {
    match p
    case TagNameIs => [TagName]
    case SearchMatches => [LikeTitle, LikeNotes, LikeUrl]
    case OrderBy(column, _) => Repeat(QuestionMarks(column))
    case LimitOffset => [Limit, Offset]
    case _ => []
  }

  /** The placeholders of a statement, in the order SQLite numbers them. */
  function Slots(ps: seq<Piece>): seq<Slot> {
    if ps == [] then [] else PieceSlots(ps[0]) + Slots(ps[1..])
  }

  /** Number of `?` placeholders in a statement. */
  function Placeholders(ps: seq<Piece>): nat {
    |Slots(ps)|
  }

  lemma {:induction false} SlotsAppend(a: seq<Piece>, b: seq<Piece>)
    ensures Slots(a + b) == Slots(a) + Slots(b)
  {
    if a == [] {
      assert a + b == b;
    } else {
      assert (a + b)[0] == a[0];
      assert (a + b)[1..] == a[1..] + b;
      SlotsAppend(a[1..], b);
    }
  }

  lemma SlotsOne(p: Piece)
    ensures Slots([p]) == PieceSlots(p)
  {
    assert [p][1..] == [];
  }

  /** The filter part of the statement: the tag join and condition, then
      the search condition, joined by WHERE for the first and AND for the
      second. */
  function FilterPieces(hasTag: bool, hasSearch: bool): seq<Piece> {
    (if hasTag then [JoinTags, Where, TagNameIs] else [])
    + (if hasSearch then [if hasTag then And else Where, SearchMatches] else [])
  }

  /** One WHERE for the first filter, one AND for the second, one
      condition for each filter given. */
  lemma FilterCounts(hasTag: bool, hasSearch: bool)
    ensures multiset(FilterPieces(hasTag, hasSearch))[Where] == (if hasTag || hasSearch then 1 else 0)
    ensures multiset(FilterPieces(hasTag, hasSearch))[And] == (if hasTag && hasSearch then 1 else 0)
    ensures multiset(FilterPieces(hasTag, hasSearch))[TagNameIs] == (if hasTag then 1 else 0)
    ensures multiset(FilterPieces(hasTag, hasSearch))[SearchMatches] == (if hasSearch then 1 else 0)
    ensures SelectLinks !in FilterPieces(hasTag, hasSearch) && LimitOffset !in FilterPieces(hasTag, hasSearch)
  {
    if hasTag && hasSearch {
      assert FilterPieces(hasTag, hasSearch) == [JoinTags, Where, TagNameIs, And, SearchMatches];
    } else if hasTag {
      assert FilterPieces(hasTag, hasSearch) == [JoinTags, Where, TagNameIs];
    } else if hasSearch {
      assert FilterPieces(hasTag, hasSearch) == [Where, SearchMatches];
    }
  }

  /** The statement of `GET /links`: sort column `createdAt` by default,
      direction DESC unless `sortOrder` is exactly `asc`. */
  function ListPieces(q: ListQuery): seq<Piece> {
    [SelectLinks] + FilterPieces(Given(q.tag), Given(q.search))
    + [Order(q), LimitOffset]
  }

  /** The text pasted after `ORDER BY links.`: `sortBy` as given, or
      `createdAt`. */
  function SortColumn(q: ListQuery): string {
    q.sortBy.GetOr("createdAt")
  }

  /** `ORDER BY links.<sortBy> <direction>`: column `createdAt` unless one
      is given, DESC unless the order is exactly `asc`. */
  function Order(q: ListQuery): (p: Piece)
    ensures p.OrderBy?
    ensures p.dir == Asc <==> q.sortOrder == Some("asc")
    ensures q.sortBy.None? ==> p.column == "createdAt"
    ensures q.sortBy.Some? ==> p.column == q.sortBy.value
  {
    OrderBy(SortColumn(q), if q.sortOrder == Some("asc") then Asc else Desc)
  }

  /** The parameters of `GET /links`: the tag, three copies of `%search%`,
      then the limit (default 20) and the offset (default 0). */
  function ListParams(q: ListQuery): seq<Param> {
    (if Given(q.tag) then [Text(q.tag.value)] else [])
    + (if Given(q.search) then
         var pattern := Text("%" + q.search.value + "%"); [pattern, pattern, pattern]
       else [])
    + [if q.limit.Some? then ParseIntOf(q.limit.value) else Int(20),
       if q.offset.Some? then ParseIntOf(q.offset.value) else Int(0)]
  }

  /** The statement has exactly one SELECT and one LIMIT, one WHERE when
      some filter is given and one AND when both are, and as many
      placeholders as the filters and the paging need. */
  lemma ListPiecesCounts(q: ListQuery)
    ensures multiset(ListPieces(q))[Where] == (if Given(q.tag) || Given(q.search) then 1 else 0)
    ensures multiset(ListPieces(q))[And] == (if Given(q.tag) && Given(q.search) then 1 else 0)
    ensures multiset(ListPieces(q))[SelectLinks] == 1 && multiset(ListPieces(q))[LimitOffset] == 1
  {
    var filter := FilterPieces(Given(q.tag), Given(q.search));
    FilterCounts(Given(q.tag), Given(q.search));
    var tail := [Order(q), LimitOffset];
    assert multiset(ListPieces(q)) == multiset([SelectLinks]) + multiset(filter) + multiset(tail);
  }

  /** The placeholders of the filter part: the tag name, then the three
      LIKE patterns. */
  lemma FilterSlots(hasTag: bool, hasSearch: bool)
    ensures Slots(FilterPieces(hasTag, hasSearch))
      == (if hasTag then [TagName] else []) + (if hasSearch then [LikeTitle, LikeNotes, LikeUrl] else [])
  {
    var tagPart: seq<Piece> := if hasTag then [JoinTags, Where, TagNameIs] else [];
    var searchPart: seq<Piece> := if hasSearch then [if hasTag then And else Where, SearchMatches] else [];
    assert FilterPieces(hasTag, hasSearch) == tagPart + searchPart;
    SlotsAppend(tagPart, searchPart);
    if hasTag {
      assert tagPart == [JoinTags] + ([Where] + [TagNameIs]);
      SlotsAppend([JoinTags], [Where] + [TagNameIs]);
      SlotsAppend([Where], [TagNameIs]);
      SlotsOne(JoinTags);
      SlotsOne(Where);
      SlotsOne(TagNameIs);
    }
    if hasSearch {
      var w := if hasTag then And else Where;
      assert searchPart == [w] + [SearchMatches];
      SlotsAppend([w], [SearchMatches]);
      SlotsOne(w);
      SlotsOne(SearchMatches);
    }
  }

  /** The placeholders of the list statement: the tag, the three patterns,
      one for each `?` in the sort text, then the limit and the offset. */
  lemma ListSlots(q: ListQuery)
    ensures Slots(ListPieces(q))
      == (if Given(q.tag) then [TagName] else [])
       + (if Given(q.search) then [LikeTitle, LikeNotes, LikeUrl] else [])
       + Repeat(QuestionMarks(SortColumn(q))) + [Limit, Offset]
  {
    var filter := FilterPieces(Given(q.tag), Given(q.search));
    StatementSlots(filter, Order(q));
    FilterSlots(Given(q.tag), Given(q.search));
    var tagSlots: seq<Slot> := if Given(q.tag) then [TagName] else [];
    var searchSlots: seq<Slot> := if Given(q.search) then [LikeTitle, LikeNotes, LikeUrl] else [];
    var sortSlots := Repeat(QuestionMarks(SortColumn(q)));
    assert Slots(filter) == tagSlots + searchSlots;
    assert PieceSlots(Order(q)) == sortSlots;
    assert (tagSlots + searchSlots) + sortSlots + [Limit, Offset] == tagSlots + searchSlots + sortSlots + [Limit, Offset];
  }

  /** The statement's placeholders: the filter's, the ORDER BY's, then
      the paging's. */
  lemma StatementSlots(filter: seq<Piece>, order: Piece)
    ensures Slots([SelectLinks] + filter + [order, LimitOffset]) == Slots(filter) + PieceSlots(order) + [Limit, Offset]
  {
    var head := [SelectLinks] + filter;
    var tail := [order] + [LimitOffset];
    assert [SelectLinks] + filter + [order, LimitOffset] == head + tail;
    assert Slots(head) == Slots(filter) by {
      SlotsAppend([SelectLinks], filter);
      SlotsOne(SelectLinks);
    }
    assert Slots(tail) == PieceSlots(order) + [Limit, Offset] by {
      SlotsAppend([order], [LimitOffset]);
      SlotsOne(order);
      SlotsOne(LimitOffset);
    }
    SlotsAppend(head, tail);
  }

  /** Placeholders appear for the tag, three for the search, one for each
      `?` in the sort text and two for the paging. */
  lemma ListPlaceholders(q: ListQuery)
    ensures Placeholders(ListPieces(q))
      == (if Given(q.tag) then 1 else 0) + (if Given(q.search) then 3 else 0) + QuestionMarks(SortColumn(q)) + 2
  {
    ListSlots(q);
  }

  /** The parameter the handler means placeholder `s` to receive; none is
      meant for a `?` inside the sort text. */
  predicate Binds(q: ListQuery, s: Slot, p: Param) {
    match s
    case TagName => q.tag.Some? && p == Text(q.tag.value)
    case LikeTitle | LikeNotes | LikeUrl => q.search.Some? && p == Text("%" + q.search.value + "%")
    case SortText => false
    case Limit => p == if q.limit.Some? then ParseIntOf(q.limit.value) else Int(20)
    case Offset => p == if q.offset.Some? then ParseIntOf(q.offset.value) else Int(0)
  }

  /** The parameters line up with the placeholders exactly when the sort
      text holds no `?`: then there are as many of each, and the i-th
      parameter is the one meant for the i-th placeholder. */
  lemma ListStatementWellFormed(q: ListQuery)
    ensures Placeholders(ListPieces(q)) == |ListParams(q)| <==> QuestionMarks(SortColumn(q)) == 0
    ensures QuestionMarks(SortColumn(q)) == 0 ==>
      forall i :: 0 <= i < |ListParams(q)| ==> Binds(q, Slots(ListPieces(q))[i], ListParams(q)[i])
  {
    ListPlaceholders(q);
    ListSlots(q);
    BindsInOrder(q, Slots(ListPieces(q)), ListParams(q));
  }

  /** Every parameter is the one meant for the placeholder at its
      position, and there are as many of each. */
  predicate AllBind(q: ListQuery, slots: seq<Slot>, params: seq<Param>) {
    |slots| == |params| && forall i :: 0 <= i < |params| ==> Binds(q, slots[i], params[i])
  }

  lemma AllBindAppend(q: ListQuery, s1: seq<Slot>, p1: seq<Param>, s2: seq<Slot>, p2: seq<Param>)
    requires AllBind(q, s1, p1) && AllBind(q, s2, p2)
    ensures AllBind(q, s1 + s2, p1 + p2)
  {
    forall i | 0 <= i < |p1 + p2| ensures Binds(q, (s1 + s2)[i], (p1 + p2)[i]) {
      if i >= |p1| {
        assert (s1 + s2)[i] == s2[i - |s1|] && (p1 + p2)[i] == p2[i - |p1|];
      }
    }
  }

  /** The parameters, in order, are the ones meant for the tag slot, the
      three pattern slots and the paging slots. */
  lemma BindsInOrder(q: ListQuery, slots: seq<Slot>, params: seq<Param>)
    requires slots == (if Given(q.tag) then [TagName] else [])
       + (if Given(q.search) then [LikeTitle, LikeNotes, LikeUrl] else [])
       + Repeat(QuestionMarks(SortColumn(q))) + [Limit, Offset]
    requires params == ListParams(q)
    ensures |params| == (if Given(q.tag) then 1 else 0) + (if Given(q.search) then 3 else 0) + 2
    ensures QuestionMarks(SortColumn(q)) == 0 ==>
      forall i :: 0 <= i < |params| ==> Binds(q, slots[i], params[i])
  {
    var tagSlots: seq<Slot> := if Given(q.tag) then [TagName] else [];
    var searchSlots: seq<Slot> := if Given(q.search) then [LikeTitle, LikeNotes, LikeUrl] else [];
    var tagParams := if Given(q.tag) then [Text(q.tag.value)] else [];
    var searchParams := if Given(q.search) then
        var pattern := Text("%" + q.search.value + "%"); [pattern, pattern, pattern]
      else [];
    var paging := [if q.limit.Some? then ParseIntOf(q.limit.value) else Int(20),
                   if q.offset.Some? then ParseIntOf(q.offset.value) else Int(0)];
    assert params == tagParams + searchParams + paging;
    if QuestionMarks(SortColumn(q)) == 0 {
      assert Repeat(0) == [];
      assert slots == tagSlots + searchSlots + [Limit, Offset];
      assert AllBind(q, tagSlots, tagParams);
      assert AllBind(q, searchSlots, searchParams);
      assert AllBind(q, [Limit, Offset], paging);
      AllBindAppend(q, tagSlots, tagParams, searchSlots, searchParams);
      AllBindAppend(q, tagSlots + searchSlots, tagParams + searchParams, [Limit, Offset], paging);
    }
  }

  /** A `?` in `sortBy` shifts the binding: with one `?` in the sort text
      (`sortBy=createdAt = ?`, say) and no filter or paging values, the
      placeholder in the ORDER BY receives the limit, LIMIT receives the
      offset and OFFSET receives nothing. */
  lemma QuestionMarkInSortBy(q: ListQuery)
    requires !Given(q.tag) && !Given(q.search) && q.limit.None? && q.offset.None?
    requires QuestionMarks(SortColumn(q)) == 1
    ensures Slots(ListPieces(q)) == [SortText, Limit, Offset]
    ensures ListParams(q) == [Int(20), Int(0)]
  {
    ListSlots(q);
    OneSortSlot(q, Slots(ListPieces(q)));
  }

  lemma OneSortSlot(q: ListQuery, slots: seq<Slot>)
    requires !Given(q.tag) && !Given(q.search) && QuestionMarks(SortColumn(q)) == 1
    requires slots == (if Given(q.tag) then [TagName] else [])
       + (if Given(q.search) then [LikeTitle, LikeNotes, LikeUrl] else [])
       + Repeat(QuestionMarks(SortColumn(q))) + [Limit, Offset]
    ensures slots == [SortText, Limit, Offset]
  {
    var none: seq<Slot> := [];
    assert slots == none + none + Repeat(1) + [Limit, Offset];
    assert Repeat(1) == [SortText];
  }

  /** Builds the statement and parameters of `GET /links` by appending, as
      the handler does. */
  method BuildListQuery(q: ListQuery) returns (pieces: seq<Piece>, params: seq<Param>)
    ensures pieces == ListPieces(q) && params == ListParams(q)
    ensures Placeholders(pieces) == |params| <==> QuestionMarks(SortColumn(q)) == 0
  {
    var sortBy := if q.sortBy.Some? then q.sortBy.value else "createdAt";
    var dir := if q.sortOrder == Some("asc") then Asc else Desc;
    var hasTag, hasSearch := Given(q.tag), Given(q.search);
    pieces := [SelectLinks];
    params := [];
    if hasTag {
      pieces := pieces + [JoinTags, Where, TagNameIs];
      params := params + [Text(q.tag.value)];
    }
    assert params == (if hasTag then [Text(q.tag.value)] else []);
    if hasSearch {
      if hasTag {
        pieces := pieces + [And];
      } else {
        pieces := pieces + [Where];
      }
      pieces := pieces + [SearchMatches];
      var pattern := Text("%" + q.search.value + "%");
      params := params + [pattern, pattern, pattern];
    }
    assert pieces == [SelectLinks] + FilterPieces(hasTag, hasSearch);
    assert params == (if hasTag then [Text(q.tag.value)] else [])
      + (if hasSearch then var pattern := Text("%" + q.search.value + "%"); [pattern, pattern, pattern] else []);
    pieces := pieces + [OrderBy(sortBy, dir)];
    pieces := pieces + [LimitOffset];
    params := params + [if q.limit.Some? then ParseIntOf(q.limit.value) else Int(20),
                        if q.offset.Some? then ParseIntOf(q.offset.value) else Int(0)];
    assert sortBy == SortColumn(q);
    ghost var filter := FilterPieces(hasTag, hasSearch);
    assert pieces == [SelectLinks] + filter + [OrderBy(sortBy, dir), LimitOffset];
    CountsAgree(q, pieces, params);
  }

  lemma CountsAgree(q: ListQuery, pieces: seq<Piece>, params: seq<Param>)
    requires pieces == ListPieces(q) && params == ListParams(q)
    ensures Placeholders(pieces) == |params| <==> QuestionMarks(SortColumn(q)) == 0
  {
    ListStatementWellFormed(q);
  }

  /** `GET /links`: builds the statement and its parameters from the query
      string, then answers 200 with the rows the database matched (`matched`,
      in its order) joined with their tag names. */
  method List(store: Store, q: ListQuery, matched: seq<string>)
    returns (pieces: seq<Piece>, params: seq<Param>, res: Response)
    requires forall k :: 0 <= k < |matched| ==> matched[k] in store.links
    ensures pieces == ListPieces(q) && params == ListParams(q)
    ensures res.status == 200 && res.body.Many? && JoinedWithTags(store, matched, res.body.links)
  {
    pieces, params := BuildListQuery(q);
    res := WithTags(store, matched);
  }

  /** The `tags` table as a map from the unique name to its id, the next
      AUTOINCREMENT id, and the `link_tags` table as a set of (link id, tag
      id) pairs. */
  datatype TagTables = TagTables(ids: map<string, int>, next: int, pairs: set<(string, int)>)

  /** Distinct names have distinct ids (the primary key). */
  ghost predicate Injective(ids: map<string, int>) {
    forall n, m :: n in ids && m in ids && ids[n] == ids[m] ==> n == m
  }

  /** Tag ids are positive, below the counter and distinct (tag names are
      distinct as map keys), and every association names an id the counter
      has handed out. */
  ghost predicate TablesValid(t: TagTables) {
    && t.next >= 1
    && (forall n :: n in t.ids ==> 1 <= t.ids[n] < t.next)
    && Injective(t.ids)
    && (forall p :: p in t.pairs ==> 1 <= p.1 < t.next)
  }

  /** Names of the tags that the tables associate with link `id`. */
  function NamesOf(t: TagTables, id: string): set<string> {
    set n | n in t.ids && (id, t.ids[n]) in t.pairs
  }

  /** One tag of `addTagsToLink`: look the name up; when it is missing,
      insert it under the next id; then insert the pair (for an existing tag
      with `INSERT OR IGNORE`, so an existing pair stays as it is). */
  function AddOne(t: TagTables, id: string, name: string): TagTables {
    if name in t.ids then t.(pairs := t.pairs + {(id, t.ids[name])})
    else TagTables(t.ids[name := t.next], t.next + 1, t.pairs + {(id, t.next)})
  }

  /** `AddOne` for every name, first to last. */
  function AddAll(t: TagTables, id: string, names: seq<string>): TagTables
    decreases |names|
  {
    if names == [] then t else AddAll(AddOne(t, id, names[0]), id, names[1..])
  }

  /** One tag keeps the tables consistent, keeps every existing tag row,
      adds the name as a tag row if missing, and associates exactly that
      name with link `id` and nothing with any other link. */
  lemma AddOneSpec(t: TagTables, id: string, name: string)
    requires TablesValid(t)
    ensures TablesValid(AddOne(t, id, name))
    ensures AddOne(t, id, name).next >= t.next
    ensures forall n :: n in t.ids ==> n in AddOne(t, id, name).ids && AddOne(t, id, name).ids[n] == t.ids[n]
    ensures AddOne(t, id, name).ids.Keys == t.ids.Keys + {name}
    ensures NamesOf(AddOne(t, id, name), id) == NamesOf(t, id) + {name}
    ensures forall other :: other != id ==> NamesOf(AddOne(t, id, name), other) == NamesOf(t, other)
  {
    AddOneValid(t, id, name);
    AddOneNames(t, id, name);
  }

  /** One tag keeps the tables consistent and the existing tag rows. */
  lemma AddOneValid(t: TagTables, id: string, name: string)
    requires TablesValid(t)
    ensures TablesValid(AddOne(t, id, name))
    ensures AddOne(t, id, name).next >= t.next
    ensures forall n :: n in t.ids ==> n in AddOne(t, id, name).ids && AddOne(t, id, name).ids[n] == t.ids[n]
    ensures AddOne(t, id, name).ids.Keys == t.ids.Keys + {name}
  {
    if name !in t.ids {
      var r := AddOne(t, id, name);
      assert r.ids == t.ids[name := t.next];
      assert forall m :: m in t.ids ==> t.ids[m] != t.next;
    }
  }

  /** One tag associates exactly `name` with link `id`, and nothing with
      any other link. */
  lemma AddOneNames(t: TagTables, id: string, name: string)
    requires TablesValid(t)
    ensures NamesOf(AddOne(t, id, name), id) == NamesOf(t, id) + {name}
    ensures forall other :: other != id ==> NamesOf(AddOne(t, id, name), other) == NamesOf(t, other)
  {
    var r := AddOne(t, id, name);
    if name in t.ids {
      assert r.ids == t.ids;
    } else {
      assert (id, t.next) !in t.pairs;
      forall other | other != id ensures NamesOf(r, other) == NamesOf(t, other) {
        assert (other, t.next) !in r.pairs;
      }
    }
  }

  /** `AddAll` keeps the tables consistent, keeps every existing tag row
      and adds the supplied names as tag rows where missing. */
  lemma {:induction false} AddAllRows(t: TagTables, id: string, names: seq<string>)
    requires TablesValid(t)
    ensures TablesValid(AddAll(t, id, names))
    ensures forall n :: n in t.ids ==> n in AddAll(t, id, names).ids && AddAll(t, id, names).ids[n] == t.ids[n]
    ensures AddAll(t, id, names).ids.Keys == t.ids.Keys + Elems(names)
    decreases |names|
  {
    if names != [] {
      var t' := AddOne(t, id, names[0]);
      AddOneSpec(t, id, names[0]);
      AddAllRows(t', id, names[1..]);
      assert AddAll(t, id, names) == AddAll(t', id, names[1..]);
      assert Elems(names) == {names[0]} + Elems(names[1..]) by {
        assert names == [names[0]] + names[1..];
      }
    }
  }

  /** `AddAll` associates exactly the supplied names with link `id` and
      changes no other link's names. */
  lemma {:induction false} AddAllNames(t: TagTables, id: string, names: seq<string>)
    requires TablesValid(t)
    ensures NamesOf(AddAll(t, id, names), id) == NamesOf(t, id) + Elems(names)
    ensures forall other :: other != id ==> NamesOf(AddAll(t, id, names), other) == NamesOf(t, other)
    decreases |names|
  {
    if names != [] {
      var t' := AddOne(t, id, names[0]);
      AddOneSpec(t, id, names[0]);
      AddAllNames(t', id, names[1..]);
      var r := AddAll(t, id, names);
      assert r == AddAll(t', id, names[1..]);
      assert Elems(names) == {names[0]} + Elems(names[1..]) by {
        assert names == [names[0]] + names[1..];
      }
      forall other | other != id ensures NamesOf(r, other) == NamesOf(t, other) {
        assert NamesOf(r, other) == NamesOf(t', other);
      }
    }
  }
}
