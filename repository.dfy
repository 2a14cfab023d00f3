/**
 * The enriched-products repository without the database engine: the search
 * query builder (WHERE clause, placeholders and parameters), and the table as
 * a sequence of rows that `insert_many` appends to and `get` scans.
 */
module Repository {
  import opened Wrappers
  import opened Text
  import JobRegistry
  import opened Collaborators
  import opened JobResults
  import opened EnrichmentSchemas

  /** A value bound to a `?` placeholder. */
  datatype SqlParam = TextParam(s: string) | IntParam(n: int)

  /** The condition of the text filter; it has two placeholders. */
  const TextCondition: string := "(original_description LIKE " + "?" + " OR enriched_description LIKE " + "?" + ")"

  /** The conditions of the date filters; one placeholder each. */
  const FromCondition: string := "created_at >= " + "?"
  const ToCondition: string := "created_at <= " + "?"

  /** The search template around its `{where_clause}` hole: two placeholders, for limit and offset. */
  const SearchHead: string :=
    "\n    SELECT id, item_id, " + "original_description, " + "enriched_description, "
    + "created_at\n    FROM " + "enriched_products\n    "
  const SearchTail: string := "\n    ORDER BY " + "created_at DESC\n    " + "LIMIT " + "?" + " OFFSET " + "?" + "\n    "

  /** The count template around its hole: no placeholders of its own. */
  const CountHead: string := "\n    SELECT COUNT(1) " + "as cnt \n    FROM " + "enriched_products "
  const CountTail: string := "\n    "

  function SearchSql(whereClause: string): string {
    SearchHead + whereClause + SearchTail
  }

  function CountSql(whereClause: string): string {
    CountHead + whereClause + CountTail
  }

  /** f"%{q}%". */
  function LikeTerm(q: string): string {
    "%" + q + "%"
  }

  /** The conditions of the truthy filters, in the order text, created-from, created-to. */
  function Conditions(q: Option<string>, createdFrom: Option<string>, createdTo: Option<string>): seq<string> {
    (if JobRegistry.Truthy(q) then [TextCondition] else [])
    + (if JobRegistry.Truthy(createdFrom) then [FromCondition] else [])
    + (if JobRegistry.Truthy(createdTo) then [ToCondition] else [])
  }

  /** The parameters of the truthy filters, in the same order: the text filter's term twice. */
  function FilterParams(q: Option<string>, createdFrom: Option<string>, createdTo: Option<string>): seq<SqlParam> {
    (if JobRegistry.Truthy(q) then [TextParam(LikeTerm(q.value)), TextParam(LikeTerm(q.value))] else [])
    + (if JobRegistry.Truthy(createdFrom) then [TextParam(createdFrom.value)] else [])
    + (if JobRegistry.Truthy(createdTo) then [TextParam(createdTo.value)] else [])
  }

  /** `f"WHERE {' AND '.join(conditions)}" if conditions else ""`. */
  function WhereClause(conditions: seq<string>): string {
    if conditions == [] then "" else "WHERE " + Join(" AND ", conditions)
  }

  /** The statements and bindings `search` hands to the database. */
  datatype SearchQuery = SearchQuery(
    whereClause: string,
    sql: string,
    params: seq<SqlParam>,
    paginated: seq<SqlParam>,
    countSql: string)

  /**
   * `search`'s builder: append a condition and its parameters for each truthy
   * filter, join the conditions into the WHERE clause, fill both templates,
   * and add limit and offset to the search's bindings only.
   */
  method BuildSearch(q: Option<string>, createdFrom: Option<string>, createdTo: Option<string>, limit: int, offset: int)
    returns (query: SearchQuery)
    ensures query.whereClause == WhereClause(Conditions(q, createdFrom, createdTo))
    ensures query.params == FilterParams(q, createdFrom, createdTo)
    ensures query.paginated == query.params + [IntParam(limit), IntParam(offset)]
    ensures query.sql == SearchSql(query.whereClause) && query.countSql == CountSql(query.whereClause)
    ensures CountChar(query.sql, '?') == |query.paginated|
    ensures CountChar(query.countSql, '?') == |query.params|
  {
    var conditions, params := FilterConditions(q, createdFrom, createdTo);
    var whereClause := if |conditions| > 0 then "WHERE " + Join(" AND ", conditions) else "";
    assert whereClause == WhereClause(conditions);
    var paginated := params + [IntParam(limit), IntParam(offset)];
    query := SearchQuery(whereClause, SearchSql(whereClause), params, paginated, CountSql(whereClause));
    QueryPlaceholders(q, createdFrom, createdTo);
  }

  /** The conditions and parameters of the truthy filters, appended in the order `search` checks them. */
  method FilterConditions(q: Option<string>, createdFrom: Option<string>, createdTo: Option<string>)
    returns (conditions: seq<string>, params: seq<SqlParam>)
    ensures conditions == Conditions(q, createdFrom, createdTo)
    ensures params == FilterParams(q, createdFrom, createdTo)
  {
    FilterSteps(q, createdFrom, createdTo);
    conditions := [];
    params := [];
    if q.Some? && q.value != "" {
      conditions := conditions + [TextCondition];
      var likeTerm := "%" + q.value + "%";
      params := params + [TextParam(likeTerm), TextParam(likeTerm)];
    }
    assert conditions == Conditions(q, None, None) && params == FilterParams(q, None, None);
    if createdFrom.Some? && createdFrom.value != "" {
      conditions := conditions + [FromCondition];
      params := params + [TextParam(createdFrom.value)];
    }
    assert conditions == Conditions(q, createdFrom, None) && params == FilterParams(q, createdFrom, None);
    if createdTo.Some? && createdTo.value != "" {
      conditions := conditions + [ToCondition];
      params := params + [TextParam(createdTo.value)];
    }
  }

  /** The filters are added one at a time, each appending to what the earlier ones built. */
  lemma FilterSteps(q: Option<string>, createdFrom: Option<string>, createdTo: Option<string>)
    ensures Conditions(q, None, None) == if JobRegistry.Truthy(q) then [TextCondition] else []
    ensures FilterParams(q, None, None)
      == if JobRegistry.Truthy(q) then [TextParam(LikeTerm(q.value)), TextParam(LikeTerm(q.value))] else []
    ensures Conditions(q, createdFrom, None)
      == Conditions(q, None, None) + (if JobRegistry.Truthy(createdFrom) then [FromCondition] else [])
    ensures FilterParams(q, createdFrom, None)
      == FilterParams(q, None, None) + (if JobRegistry.Truthy(createdFrom) then [TextParam(createdFrom.value)] else [])
    ensures Conditions(q, createdFrom, createdTo)
      == Conditions(q, createdFrom, None) + (if JobRegistry.Truthy(createdTo) then [ToCondition] else [])
    ensures FilterParams(q, createdFrom, createdTo)
      == FilterParams(q, createdFrom, None) + (if JobRegistry.Truthy(createdTo) then [TextParam(createdTo.value)] else [])
  {
    assert Conditions(q, None, None) == (if JobRegistry.Truthy(q) then [TextCondition] else []) + [] + [];
    assert FilterParams(q, None, None)
      == (if JobRegistry.Truthy(q) then [TextParam(LikeTerm(q.value)), TextParam(LikeTerm(q.value))] else []) + [] + [];
    assert Conditions(q, createdFrom, None)
      == (if JobRegistry.Truthy(q) then [TextCondition] else [])
      + (if JobRegistry.Truthy(createdFrom) then [FromCondition] else []) + [];
    assert FilterParams(q, createdFrom, None)
      == (if JobRegistry.Truthy(q) then [TextParam(LikeTerm(q.value)), TextParam(LikeTerm(q.value))] else [])
      + (if JobRegistry.Truthy(createdFrom) then [TextParam(createdFrom.value)] else []) + [];
  }

  /** Both filled templates have one '?' per binding the search passes them. */
  lemma QueryPlaceholders(q: Option<string>, createdFrom: Option<string>, createdTo: Option<string>)
    ensures CountChar(SearchSql(WhereClause(Conditions(q, createdFrom, createdTo))), '?') == |FilterParams(q, createdFrom, createdTo)| + 2
    ensures CountChar(CountSql(WhereClause(Conditions(q, createdFrom, createdTo))), '?') == |FilterParams(q, createdFrom, createdTo)|
  {
    PlaceholdersMatchParams(q, createdFrom, createdTo);
    TemplatePlaceholders(WhereClause(Conditions(q, createdFrom, createdTo)));
  }

  /** With no truthy filter the clause is empty; with one, it starts with "WHERE ". */
  lemma WhereClauseShape(q: Option<string>, createdFrom: Option<string>, createdTo: Option<string>)
    ensures WhereClause(Conditions(q, createdFrom, createdTo)) == ""
      <==> !JobRegistry.Truthy(q) && !JobRegistry.Truthy(createdFrom) && !JobRegistry.Truthy(createdTo)
    ensures WhereClause(Conditions(q, createdFrom, createdTo)) != "" ==>
      StartsWith(WhereClause(Conditions(q, createdFrom, createdTo)), "WHERE ")
  {
  }

  /** An empty-string filter is the same as an absent one. */
  lemma EmptyFilterIsAbsent(q: Option<string>, createdFrom: Option<string>, createdTo: Option<string>)
    ensures Conditions(Some(""), createdFrom, createdTo) == Conditions(None, createdFrom, createdTo)
    ensures Conditions(q, Some(""), createdTo) == Conditions(q, None, createdTo)
    ensures Conditions(q, createdFrom, Some("")) == Conditions(q, createdFrom, None)
    ensures FilterParams(Some(""), createdFrom, createdTo) == FilterParams(None, createdFrom, createdTo)
    ensures FilterParams(q, Some(""), createdTo) == FilterParams(q, None, createdTo)
    ensures FilterParams(q, createdFrom, Some("")) == FilterParams(q, createdFrom, None)
  {
  }

  /** The text filter binds the same term, `%q%`, to both of its placeholders, ahead of the dates. */
  lemma TextFilterParams(q: Option<string>, createdFrom: Option<string>, createdTo: Option<string>)
    requires JobRegistry.Truthy(q)
    ensures |FilterParams(q, createdFrom, createdTo)| >= 2
    ensures FilterParams(q, createdFrom, createdTo)[0] == FilterParams(q, createdFrom, createdTo)[1] == TextParam(LikeTerm(q.value))
    ensures Conditions(q, createdFrom, createdTo)[0] == TextCondition
  {
  }

  /** All three filters: the conditions in order, joined by " AND ". */
  lemma AllFiltersClause(q: string, createdFrom: string, createdTo: string)
    requires q != "" && createdFrom != "" && createdTo != ""
    ensures WhereClause(Conditions(Some(q), Some(createdFrom), Some(createdTo)))
      == "WHERE " + TextCondition + " AND " + FromCondition + " AND " + ToCondition
    ensures FilterParams(Some(q), Some(createdFrom), Some(createdTo))
      == [TextParam(LikeTerm(q)), TextParam(LikeTerm(q)), TextParam(createdFrom), TextParam(createdTo)]
  {
    var cs := [TextCondition, FromCondition, ToCondition];
    assert Conditions(Some(q), Some(createdFrom), Some(createdTo)) == cs;
    assert cs[1..][1..] == [ToCondition];
    assert Join(" AND ", cs[1..]) == FromCondition + " AND " + ToCondition;
  }

  /** A text ending in its only placeholder. */
  lemma {:induction false} TrailingPlaceholder(a: string)
    requires '?' !in a
    ensures CountChar(a + "?", '?') == 1
  {
    CountCharAbsent(a, '?');
    CountCharAppend(a, "?", '?');
  }

  /** A text with exactly two placeholders, between three placeholder-free pieces. */
  lemma {:induction false} TwoPlaceholders(a: string, b: string, c: string)
    requires '?' !in a && '?' !in b && '?' !in c
    ensures CountChar(a + "?" + b + "?" + c, '?') == 2
  {
    CountCharAbsent(a, '?');
    CountCharAbsent(b, '?');
    CountCharAbsent(c, '?');
    CountCharAppend(a, "?", '?');
    CountCharAppend(a + "?", b, '?');
    CountCharAppend(a + "?" + b, "?", '?');
    CountCharAppend(a + "?" + b + "?", c, '?');
  }

  /** Each condition has as many placeholders as it binds parameters; the separators have none. */
  lemma ConditionPlaceholders()
    ensures CountChar(TextCondition, '?') == 2
    ensures CountChar(FromCondition, '?') == 1
    ensures CountChar(ToCondition, '?') == 1
    ensures CountChar(" AND ", '?') == 0
    ensures CountChar("WHERE ", '?') == 0
  {
    TextConditionPlaceholders();
    DateConditionPlaceholders();
    CountCharAbsent(" AND ", '?');
    CountCharAbsent("WHERE ", '?');
  }

  lemma TextConditionPlaceholders()
    ensures CountChar(TextCondition, '?') == 2
  {
    TwoPlaceholders("(original_description LIKE ", " OR enriched_description LIKE ", ")");
  }

  lemma DateConditionPlaceholders()
    ensures CountChar(FromCondition, '?') == 1 && CountChar(ToCondition, '?') == 1
  {
    TrailingPlaceholder("created_at >= ");
    TrailingPlaceholder("created_at <= ");
  }

  /** Each filter contributes as many '?' to the conditions as parameters to the bindings. */
  lemma FilterPartsMatch(q: Option<string>, createdFrom: Option<string>, createdTo: Option<string>)
    ensures CountChars(if JobRegistry.Truthy(q) then [TextCondition] else [], '?')
      == |if JobRegistry.Truthy(q) then [TextParam(LikeTerm(q.value)), TextParam(LikeTerm(q.value))] else []|
    ensures CountChars(if JobRegistry.Truthy(createdFrom) then [FromCondition] else [], '?')
      == |if JobRegistry.Truthy(createdFrom) then [TextParam(createdFrom.value)] else []|
    ensures CountChars(if JobRegistry.Truthy(createdTo) then [ToCondition] else [], '?')
      == |if JobRegistry.Truthy(createdTo) then [TextParam(createdTo.value)] else []|
  {
    ConditionPlaceholders();
    assert CountChars([TextCondition], '?') == CountChar(TextCondition, '?') + CountChars([], '?');
    assert CountChars([FromCondition], '?') == CountChar(FromCondition, '?') + CountChars([], '?');
    assert CountChars([ToCondition], '?') == CountChar(ToCondition, '?') + CountChars([], '?');
  }

  /**
   * The WHERE clause has one placeholder per filter parameter, in the same
   * number as the bindings `search` passes with it.
   */
  lemma PlaceholdersMatchParams(q: Option<string>, createdFrom: Option<string>, createdTo: Option<string>)
    ensures CountChar(WhereClause(Conditions(q, createdFrom, createdTo)), '?') == |FilterParams(q, createdFrom, createdTo)|
  {
    FilterPartsMatch(q, createdFrom, createdTo);
    ClauseMatchesParts(
      if JobRegistry.Truthy(q) then [TextCondition] else [],
      if JobRegistry.Truthy(createdFrom) then [FromCondition] else [],
      if JobRegistry.Truthy(createdTo) then [ToCondition] else [],
      if JobRegistry.Truthy(q) then [TextParam(LikeTerm(q.value)), TextParam(LikeTerm(q.value))] else [],
      if JobRegistry.Truthy(createdFrom) then [TextParam(createdFrom.value)] else [],
      if JobRegistry.Truthy(createdTo) then [TextParam(createdTo.value)] else []);
  }

  /** Conditions built from parts whose '?' match their parameters give a clause that matches them all. */
  lemma ClauseMatchesParts(a: seq<string>, b: seq<string>, c: seq<string>, pa: seq<SqlParam>, pb: seq<SqlParam>, pc: seq<SqlParam>)
    requires CountChars(a, '?') == |pa| && CountChars(b, '?') == |pb| && CountChars(c, '?') == |pc|
    ensures CountChar(WhereClause(a + b + c), '?') == |pa + pb + pc|
  {
    CountCharsAppend(a + b, c, '?');
    CountCharsAppend(a, b, '?');
    if a + b + c != [] {
      CountCharAbsent(" AND ", '?');
      CountCharJoin(" AND ", a + b + c, '?');
      CountCharAbsent("WHERE ", '?');
      CountCharAppend("WHERE ", Join(" AND ", a + b + c), '?');
    }
  }

  /** A text made of five placeholder-free pieces has none. */
  lemma NoPlaceholders(a: string, b: string, c: string, d: string, e: string)
    requires '?' !in a && '?' !in b && '?' !in c && '?' !in d && '?' !in e
    ensures CountChar(a + b + c + d + e, '?') == 0
  {
    CountCharAbsent(a + b + c + d + e, '?');
  }

  /** The search template has no placeholder before its hole. */
  lemma SearchHeadPlaceholders()
    ensures CountChar(SearchHead, '?') == 0
  {
    NoPlaceholders("\n    SELECT id, item_id, ", "original_description, ", "enriched_description, ",
                   "created_at\n    FROM ", "enriched_products\n    ");
  }

  /** The search template's placeholders after its hole: limit and offset. */
  lemma SearchTailPlaceholders()
    ensures CountChar(SearchTail, '?') == 2
  {
    TwoPlaceholders("\n    ORDER BY " + "created_at DESC\n    " + "LIMIT ", " OFFSET ", "\n    ");
  }

  /** The count template has no placeholder of its own. */
  lemma CountTemplatePlaceholders()
    ensures CountChar(CountHead, '?') == 0 && CountChar(CountTail, '?') == 0
  {
    NoPlaceholders("\n    SELECT COUNT(1) ", "as cnt \n    FROM ", "enriched_products ", "", "");
    assert CountHead + "" + "" == CountHead;
    CountCharAbsent(CountTail, '?');
  }

  /** The search template adds two placeholders to the clause's; the count template none. */
  lemma TemplatePlaceholders(whereClause: string)
    ensures CountChar(SearchSql(whereClause), '?') == CountChar(whereClause, '?') + 2
    ensures CountChar(CountSql(whereClause), '?') == CountChar(whereClause, '?')
  {
    SearchHeadPlaceholders();
    SearchTailPlaceholders();
    CountTemplatePlaceholders();
    CountCharAppend(SearchHead, whereClause, '?');
    CountCharAppend(SearchHead + whereClause, SearchTail, '?');
    CountCharAppend(CountHead, whereClause, '?');
    CountCharAppend(CountHead + whereClause, CountTail, '?');
  }

  /**
   * One item handed to `insert_many`: each field `None` when the key is
   * missing from the dict.
   */
  datatype InsertItem = InsertItem(
    itemId: Option<string>,
    originalDescription: Option<string>,
    enrichedDescription: Option<string>,
    createdAt: Option<string>)

  /** The dict the enrichment pipeline builds for a record: every key present. */
  function ItemOf(r: EnrichedRecord): InsertItem {
    InsertItem(Some(r.itemId), Some(r.originalDescription), Some(r.enrichedDescription), Some(r.createdAt))
  }

  function OrEmpty(s: Option<string>): string {
    if s.Some? then s.value else ""
  }

  /**
   * The row inserted for an item under row id `id`: missing texts become "",
   * a missing or empty `created_at` becomes the clock's reading `now`.
   */
  function RowFor(item: InsertItem, id: int, now: Timestamp): EnrichedProduct {
    EnrichedProduct(
      id,
      OrEmpty(item.itemId),
      OrEmpty(item.originalDescription),
      OrEmpty(item.enrichedDescription),
      Some(if JobRegistry.Truthy(item.createdAt) then item.createdAt.value else now))
  }

  /** The rows for `items` with consecutive ids from `firstId`; the k-th item reads the clock as `clock(k)`. */
  function RowsFor(items: seq<InsertItem>, firstId: int, clock: nat -> Timestamp): (rows: seq<EnrichedProduct>)
    ensures |rows| == |items|
  {
    if items == [] then []
    else RowsFor(items[..|items| - 1], firstId, clock) + [RowFor(items[|items| - 1], firstId + |items| - 1, clock(|items| - 1))]
  }

  /** Row k of the inserted rows is item k's with id `firstId + k`, and its creation time is never empty. */
  lemma {:induction false} RowsForAt(items: seq<InsertItem>, firstId: int, clock: nat -> Timestamp, k: nat)
    requires k < |items|
    ensures RowsFor(items, firstId, clock)[k] == RowFor(items[k], firstId + k, clock(k))
    ensures RowsFor(items, firstId, clock)[k].createdAt.Some? && RowsFor(items, firstId, clock)[k].createdAt.value != ""
  {
    if k < |items| - 1 {
      RowsForAt(items[..|items| - 1], firstId, clock, k);
    }
  }

  /** A record from the pipeline is stored as it is, under its row id. */
  lemma RecordStoredVerbatim(r: EnrichedRecord, id: int, now: Timestamp)
    requires r.createdAt != ""
    ensures RowFor(ItemOf(r), id, now) == EnrichedProduct(id, r.itemId, r.originalDescription, r.enrichedDescription, Some(r.createdAt))
  {
  }

  /** `get`'s scan: the first row with the item id, if any. */
  function FirstWithItemId(rows: seq<EnrichedProduct>, itemId: string): (r: Option<EnrichedProduct>)
    ensures r.None? <==> forall i :: 0 <= i < |rows| ==> rows[i].itemId != itemId
    ensures r.Some? ==>
      exists i :: 0 <= i < |rows| && rows[i] == r.value && r.value.itemId == itemId
        && forall j :: 0 <= j < i ==> rows[j].itemId != itemId
  {
    if rows == [] then None
    else if rows[0].itemId == itemId then Some(rows[0])
    else
      var r := FirstWithItemId(rows[1..], itemId);
      assert forall j :: 1 <= j < |rows| ==> rows[j] == rows[1..][j - 1];
      r
  }

  /** The enriched-products table. */
  class ProductStore {
    var rows: seq<EnrichedProduct>

    /** Row ids are the autoincrement sequence 1, 2, ... in insertion order. */
    ghost predicate Valid()
      reads this
    {
      forall i :: 0 <= i < |rows| ==> rows[i].id == i + 1
    }

    constructor ()
      ensures Valid() && rows == []
    {
      rows := [];
    }

    /**
     * `insert_many(items)`: one row per item, in order, with the defaults of
     * `RowFor`, each under the next autoincrement id; then one commit.
     */
    method InsertMany(items: seq<InsertItem>, clock: nat -> Timestamp)
      requires Valid()
      modifies this
      ensures Valid()
      ensures rows == old(rows) + RowsFor(items, |old(rows)| + 1, clock)
    {
      var firstId := |rows| + 1;
      var k := 0;
      while k < |items|
        invariant 0 <= k <= |items|
        invariant Valid()
        invariant rows == old(rows) + RowsFor(items[..k], firstId, clock)
      {
        var item := items[k];
        var createdAt := if item.createdAt.Some? && item.createdAt.value != "" then item.createdAt.value else clock(k);
        var row := EnrichedProduct(|rows| + 1, OrEmpty(item.itemId), OrEmpty(item.originalDescription),
                                   OrEmpty(item.enrichedDescription), Some(createdAt));
        assert items[..k + 1][..k] == items[..k];
        rows := rows + [row];
        k := k + 1;
      }
      assert items[..k] == items;
    }

    /** `get(item_id)`: the first stored row with that item id, or `None`. */
    function Get(itemId: string): (r: Option<EnrichedProduct>)
      reads this
      ensures r.None? <==> forall i :: 0 <= i < |rows| ==> rows[i].itemId != itemId
      ensures r.Some? ==> r.value in rows && r.value.itemId == itemId
    {
      FirstWithItemId(rows, itemId)
    }
  }
}
