/**
 * `/api/products`: the slug derived from a product's name, the admin-only creator (POST),
 * and the listing (GET): the filter it builds from the query string and its pagination.
 */
module ProductsRoute {
  import opened Wrappers
  import opened JsString
  import opened JsNumber
  import opened Shop
  import opened ProductModel

  /* ---------- slug ---------- */

  /** The characters `[a-z0-9]` matches. */
  predicate IsSlugChar(c: char) {
    'a' <= c <= 'z' || '0' <= c <= '9'
  }

  /** No two dashes in a row. */
  predicate NoDoubleDash(s: string) {
    forall i :: 0 <= i < |s| - 1 ==> !(s[i] == '-' && s[i + 1] == '-')
  }

  /** Only `[a-z0-9]` and '-'. */
  predicate SlugAlphabet(s: string) {
    forall i :: 0 <= i < |s| ==> IsSlugChar(s[i]) || s[i] == '-'
  }

  /**
   * `.replace(/[^a-z0-9]+/g, '-')`, scanning left to right; `inRun` says the previous
   * character was already part of a replaced run.
   */
  function CollapseFrom(s: string, inRun: bool): (r: string)
    ensures SlugAlphabet(r) && NoDoubleDash(r)
    ensures inRun ==> r == [] || IsSlugChar(r[0])
  {
    if s == [] then []
    else if IsSlugChar(s[0]) then [s[0]] + CollapseFrom(s[1..], false)
    else if inRun then CollapseFrom(s[1..], true)
    else
      var rest := CollapseFrom(s[1..], true);
      assert forall i :: 1 <= i < |rest| + 1 ==> (['-'] + rest)[i] == rest[i - 1];
      ['-'] + rest
  }

  /** `.replace(/(^-|-$)/g, '')`: one dash at the start and one at the end are dropped. */
  function StripEdgeDashes(s: string): (r: string)
    requires NoDoubleDash(s)
    ensures r == [] || (r[0] != '-' && r[|r| - 1] != '-')
    ensures SlugAlphabet(s) ==> SlugAlphabet(r)
    ensures NoDoubleDash(r)
  {
    var head := if s != [] && s[0] == '-' then s[1..] else s;
    if head != [] && head[|head| - 1] == '-' then head[..|head| - 1] else head
  }

  /** The slug the route computes: lower-case, collapse runs, strip the edge dashes. */
  function Slug(name: string): (slug: string)
    ensures SlugAlphabet(slug) && NoDoubleDash(slug)
    ensures slug == [] || (slug[0] != '-' && slug[|slug| - 1] != '-')
  {
    StripEdgeDashes(CollapseFrom(Lower(name), false))
  }

  /** A clean slug: right alphabet, no double dash, no dash at either end. */
  predicate CleanSlug(s: string) {
    SlugAlphabet(s) && NoDoubleDash(s) && (s == [] || (s[0] != '-' && s[|s| - 1] != '-'))
  }

  /** Collapsing a string already in the slug alphabet with no double dash changes nothing. */
  lemma {:induction false} CollapseClean(s: string, inRun: bool)
    requires SlugAlphabet(s) && NoDoubleDash(s)
    requires inRun && s != [] ==> s[0] != '-'
    ensures CollapseFrom(s, inRun) == s
  {
    if s != [] {
      assert SlugAlphabet(s[1..]) && NoDoubleDash(s[1..]);
      if IsSlugChar(s[0]) {
        CollapseClean(s[1..], false);
      } else {
        assert s[1..] != [] ==> s[1..][0] != '-';
        CollapseClean(s[1..], true);
      }
      assert [s[0]] + s[1..] == s;
    }
  }

  /** A string in the slug alphabet has no upper-case letter and no whitespace to remove. */
  lemma SlugAlphabetStable(s: string)
    requires SlugAlphabet(s)
    ensures Lower(s) == s && Trimmed(s)
  {
    assert forall i :: 0 <= i < |s| ==> !IsUpper(s[i]);
    assert s != [] ==> !IsWhitespace(s[0]) && !IsWhitespace(s[|s| - 1]);
  }

  /** A slug is its own slug: running the rewrite twice gives the same result. */
  lemma SlugIdempotent(name: string)
    ensures Slug(Slug(name)) == Slug(name)
  {
    var s := Slug(name);
    SlugAlphabetStable(s);
    CollapseClean(s, false);
  }

  /** The schema's `lowercase` and `trim` setters leave a computed slug as it is. */
  lemma SlugSurvivesSetters(name: string)
    ensures Trim(Lower(Slug(name))) == Slug(name)
  {
    SlugAlphabetStable(Slug(name));
  }

  /** The letters and digits of a string, in order. */
  function Alnum(s: string): (r: string)
    ensures forall i :: 0 <= i < |r| ==> IsSlugChar(r[i])
  {
    if s == [] then []
    else (if IsSlugChar(s[0]) then [s[0]] else []) + Alnum(s[1..])
  }

  lemma {:induction false} AlnumAppend(a: string, b: string)
    ensures Alnum(a + b) == Alnum(a) + Alnum(b)
  {
    if a == [] {
      assert a + b == b;
    } else {
      assert (a + b)[0] == a[0] && (a + b)[1..] == a[1..] + b;
      AlnumAppend(a[1..], b);
    }
  }

  lemma {:induction false} CollapseKeepsAlnum(s: string, inRun: bool)
    ensures Alnum(CollapseFrom(s, inRun)) == Alnum(s)
  {
    if s != [] {
      CollapseKeepsAlnum(s[1..], true);
      CollapseKeepsAlnum(s[1..], false);
      if IsSlugChar(s[0]) {
        AlnumAppend([s[0]], CollapseFrom(s[1..], false));
      } else if !inRun {
        AlnumAppend(['-'], CollapseFrom(s[1..], true));
      }
    }
  }

  /** Whether the scan is inside a replaced run after reading `s`, having started with `inRun`. */
  function RunAfter(s: string, inRun: bool): bool {
    if s == [] then inRun else !IsSlugChar(s[|s| - 1])
  }

  /** The rewrite reads left to right: a concatenation is rewritten part by part. */
  lemma {:induction false} CollapseAppend(x: string, y: string, inRun: bool)
    ensures CollapseFrom(x + y, inRun) == CollapseFrom(x, inRun) + CollapseFrom(y, RunAfter(x, inRun))
    decreases |x|
  {
    if x == [] {
      assert x + y == y;
    } else {
      assert (x + y)[0] == x[0] && (x + y)[1..] == x[1..] + y;
      var next := !IsSlugChar(x[0]);
      CollapseAppend(x[1..], y, next);
      assert RunAfter(x[1..], next) == RunAfter(x, inRun);
    }
  }

  /** A stretch with no letter or digit becomes one dash, or nothing if a run is already open. */
  lemma {:induction false} CollapseRun(s: string, inRun: bool)
    requires forall i :: 0 <= i < |s| ==> !IsSlugChar(s[i])
    ensures CollapseFrom(s, inRun) == if s == [] || inRun then [] else "-"
  {
    if s != [] {
      CollapseRun(s[1..], true);
    }
  }

  /** A string ending in a letter or digit is rewritten to one ending in that character. */
  lemma CollapseEndsLike(s: string, inRun: bool)
    requires s != [] && IsSlugChar(s[|s| - 1])
    ensures var r := CollapseFrom(s, inRun); r != [] && r[|r| - 1] == s[|s| - 1]
  {
    var init, c := s[..|s| - 1], s[|s| - 1];
    assert s == init + [c];
    CollapseAppend(init, [c], inRun);
    assert CollapseFrom([c], RunAfter(init, inRun)) == [c] by {
      assert [c][1..] == [];
    }
  }

  /** The `^-` half of the edge rewrite. */
  function DropLeadingDash(s: string): string {
    if s != [] && s[0] == '-' then s[1..] else s
  }

  /** The `-$` half of the edge rewrite. */
  function DropTrailingDash(s: string): string {
    if s != [] && s[|s| - 1] == '-' then s[..|s| - 1] else s
  }

  /** The edge rewrite is its two halves, start first. */
  lemma StripIsDrops(s: string)
    requires NoDoubleDash(s)
    ensures StripEdgeDashes(s) == DropTrailingDash(DropLeadingDash(s))
  {
  }

  /** Words joined by a dash lose their edge dashes separately: the joining dash stays. */
  lemma StripJoin(x: string, y: string)
    requires x != [] && IsSlugChar(x[|x| - 1]) && y != [] && IsSlugChar(y[0])
    ensures DropTrailingDash(DropLeadingDash(x + "-" + y))
            == DropTrailingDash(DropLeadingDash(x)) + "-" + DropTrailingDash(DropLeadingDash(y))
  {
    var hx := DropLeadingDash(x);
    assert hx != [] && hx[|hx| - 1] == x[|x| - 1];
    assert DropTrailingDash(hx) == hx;
    assert DropLeadingDash(y) == y;
    var w := x + "-" + y;
    assert DropLeadingDash(w) == (hx + "-") + y by {
      if x[0] == '-' {
        assert w[1..] == x[1..] + "-" + y;
      }
    }
    if y[|y| - 1] == '-' {
      var m := hx + "-";
      assert (m + y)[..|m + y| - 1] == m + y[..|y| - 1];
    }
  }

  /** A name that lower-cases to letters and digits only is its own slug, lower-cased. */
  lemma SlugOfWord(w: string)
    requires forall i :: 0 <= i < |Lower(w)| ==> IsSlugChar(Lower(w)[i])
    ensures Slug(w) == Lower(w)
  {
    CollapseClean(Lower(w), false);
  }

  /**
   * `.replace(/[^a-z0-9]+/g, '-')` in one case: two words around a stretch with no letter or
   * digit are slugged separately and joined by exactly one dash.
   */
  lemma SlugJoinsWords(a: string, sep: string, b: string)
    requires Lower(a) != [] && IsSlugChar(Lower(a)[|Lower(a)| - 1])
    requires Lower(b) != [] && IsSlugChar(Lower(b)[0])
    requires Lower(sep) != [] && forall i :: 0 <= i < |Lower(sep)| ==> !IsSlugChar(Lower(sep)[i])
    ensures Slug(a + sep + b) == Slug(a) + "-" + Slug(b)
  {
    var la, ls, lb := Lower(a), Lower(sep), Lower(b);
    LowerAppend(a, sep);
    LowerAppend(a + sep, b);
    var ca, cb := CollapseFrom(la, false), CollapseFrom(lb, false);
    CollapseAppend(la + ls, lb, false);
    CollapseAppend(la, ls, false);
    CollapseRun(ls, false);
    assert CollapseFrom(lb, true) == cb;
    var c := CollapseFrom(Lower(a + sep + b), false);
    assert c == ca + "-" + cb;
    CollapseEndsLike(la, false);
    StripJoin(ca, cb);
    StripIsDrops(c);
    StripIsDrops(ca);
    StripIsDrops(cb);
  }

  /** Dropping the edge dashes drops no letter or digit. */
  lemma StripKeepsAlnum(s: string)
    requires NoDoubleDash(s)
    ensures Alnum(StripEdgeDashes(s)) == Alnum(s)
  {
    var head := if s != [] && s[0] == '-' then s[1..] else s;
    assert Alnum(head) == Alnum(s) by {
      if s != [] && s[0] == '-' {
        FirstDashAlnum(s);
      }
    }
    var r := if head != [] && head[|head| - 1] == '-' then head[..|head| - 1] else head;
    assert Alnum(r) == Alnum(head) by {
      if head != [] && head[|head| - 1] == '-' {
        LastDashAlnum(head);
      }
    }
    assert StripEdgeDashes(s) == r;
  }

  /** A dash at the start adds no letter or digit. */
  lemma FirstDashAlnum(s: string)
    requires s != [] && s[0] == '-'
    ensures Alnum(s[1..]) == Alnum(s)
  {
  }

  /** A dash at the end adds no letter or digit. */
  lemma LastDashAlnum(s: string)
    requires s != [] && s[|s| - 1] == '-'
    ensures Alnum(s[..|s| - 1]) == Alnum(s)
  {
    assert s == s[..|s| - 1] + ['-'];
    AlnumAppend(s[..|s| - 1], ['-']);
    assert Alnum(['-']) == [] by {
      assert ['-'][1..] == [];
    }
  }

  /** The slug keeps every lower-case letter and digit of the lower-cased name, in order, and nothing else. */
  lemma SlugKeepsAlnum(name: string)
    ensures Alnum(Slug(name)) == Alnum(Lower(name))
  {
    CollapseKeepsAlnum(Lower(name), false);
    StripKeepsAlnum(CollapseFrom(Lower(name), false));
  }

  /* ---------- POST ---------- */

  /** Every stored product passed the validators, and no two share a slug. */
  predicate ValidCatalog(products: seq<ProductDoc>) {
    && (forall k :: 0 <= k < |products| ==> ProductModel.Valid(products[k]))
    && (forall j, k :: 0 <= j < k < |products| ==> products[j].slug != products[k].slug)
  }

  /** Appending a valid product with a new slug keeps the catalog valid. */
  lemma AppendKeepsCatalogValid(products: seq<ProductDoc>, doc: ProductDoc)
    requires ValidCatalog(products) && ProductModel.Valid(doc)
    requires forall k :: 0 <= k < |products| ==> products[k].slug != doc.slug
    ensures ValidCatalog(products + [doc])
  {
    var after := products + [doc];
    forall j, k | 0 <= j < k < |after| ensures after[j].slug != after[k].slug {
      if k == |products| {
        assert after[j] == products[j];
      } else {
        assert after[j] == products[j] && after[k] == products[k];
      }
    }
  }

  /** The product collection, in insertion order; slugs are unique. */
  class ProductStore {
    var products: seq<ProductDoc>

    constructor ()
      ensures products == []
    {
      products := [];
    }

    predicate SlugTaken(slug: string)
      reads this
    {
      exists k :: 0 <= k < |products| && products[k].slug == slug
    }

    predicate Valid()
      reads this
    {
      ValidCatalog(products)
    }

    /**
     * POST /api/products: 401 unless the session user is an admin; 400 when name, price or
     * category is falsy (a price of 0 counts as missing); then the document is built with the
     * computed slug (any slug in the body is overwritten) and saved, which fails with 500 when
     * a validator rejects it or the slug is taken; 201 on success.
     */
    method Post(session: Option<SessionUser>, input: ProductInput) returns (code: int)
      modifies this
      ensures session.None? || session.value.role != "admin" ==> code == 401 && products == old(products)
      ensures session.Some? && session.value.role == "admin"
              && (input.name == "" || input.price.None? || input.price == Some(0.0) || input.category == "")
              ==> code == 400 && products == old(products)
      ensures code == 201 <==>
              && session.Some? && session.value.role == "admin"
              && input.name != "" && input.price.Some? && input.price != Some(0.0) && input.category != ""
              && ProductModel.Valid(NewProduct(input, Slug(input.name))) && !old(SlugTaken(Slug(input.name)))
      ensures code == 201 ==> products == old(products) + [NewProduct(input, Slug(input.name))]
      ensures code != 201 ==> products == old(products)
      ensures code in {201, 400, 401, 500}
      ensures old(Valid()) ==> Valid()
    {
      if session.None? || session.value.role != "admin" {
        return 401;
      }
      if input.name == "" || input.price.None? || input.price == Some(0.0) || input.category == "" {
        return 400;
      }
      var slug := Slug(input.name);
      var doc := NewProduct(input, slug);
      if !ProductModel.Valid(doc) || SlugTaken(slug) {
        return 500;
      }
      StoredSlugIsClean(input);
      if ValidCatalog(products) {
        AppendKeepsCatalogValid(products, doc);
      }
      products := products + [doc];
      return 201;
    }
  }

  /** Every stored product has the slug of its own name. */
  lemma StoredSlugIsClean(input: ProductInput)
    requires input.price.Some?
    ensures NewProduct(input, Slug(input.name)).slug == Slug(input.name)
    ensures CleanSlug(NewProduct(input, Slug(input.name)).slug)
  {
    SlugSurvivesSetters(input.name);
  }

  /* ---------- GET ---------- */

  /** The query-string parameters, with empty ones counted as absent; prices already parsed. */
  datatype ListParams = ListParams(
    category: Option<string>, search: Option<string>, page: Option<int>, limit: Option<int>,
    minPrice: Option<real>, maxPrice: Option<real>)

  /** The filter object, field by field. */
  datatype Query = Query(category: Option<string>, text: Option<string>, gte: Option<real>, lte: Option<real>)

  /** What a product must satisfy to be listed, each test applying only when its parameter is given. */
  predicate Wanted(params: ListParams, p: ProductDoc) {
    && (params.category.Some? ==> p.category == params.category.value)
    && (params.minPrice.Some? ==> params.minPrice.value <= p.price)
    && (params.maxPrice.Some? ==> p.price <= params.maxPrice.value)
  }

  /** How the database applies the filter (the text search is not modelled). */
  predicate Matches(q: Query, p: ProductDoc) {
    && (q.category.None? || p.category == q.category.value)
    && (q.gte.None? || p.price >= q.gte.value)
    && (q.lte.None? || p.price <= q.lte.value)
  }

  /** The route's construction of `query`, one conditional assignment at a time. */
  method BuildQuery(params: ListParams) returns (q: Query)
    ensures forall p :: Matches(q, p) <==> Wanted(params, p)
    ensures q.text == params.search
  {
    q := Query(None, None, None, None);
    if params.category.Some? {
      q := q.(category := params.category);
    }
    if params.search.Some? {
      q := q.(text := params.search);
    }
    if params.minPrice.Some? || params.maxPrice.Some? {
      if params.minPrice.Some? {
        q := q.(gte := params.minPrice);
      }
      if params.maxPrice.Some? {
        q := q.(lte := params.maxPrice);
      }
    }
  }

  /** `parseInt(page || '1')` and `parseInt(limit || '10')`. */
  function PageOf(params: ListParams): int { params.page.GetOr(1) }
  function LimitOf(params: ListParams): int { params.limit.GetOr(10) }

  /** `(page - 1) * limit`. */
  function Skip(page: int, limit: int): int { (page - 1) * limit }

  /** `Math.ceil(total / limit)`; a zero limit gives Infinity or NaN, which the JSON body writes as null. */
  function Pages(total: nat, limit: int): (pages: Option<int>)
    ensures limit > 0 ==> pages.Some? && total <= pages.value * limit
    ensures limit > 0 && total > 0 ==> (pages.value - 1) * limit < total
    ensures limit > 0 && total == 0 ==> pages == Some(0)
    ensures limit == 0 ==> pages.None?
  {
    if limit == 0 then None
    else
      var c := Ceil(total as real / limit as real);
      assert limit > 0 ==> total <= c * limit && (total > 0 ==> (c - 1) * limit < total) by {
        if limit > 0 { CeilDivBounds(total, limit); }
      }
      Some(c)
  }

  /** `Math.ceil(total / limit)` pages of `limit` hold `total`, and one page fewer would not. */
  lemma CeilDivBounds(total: nat, limit: int)
    requires limit > 0
    ensures var c := Ceil(total as real / limit as real);
      total <= c * limit && (total > 0 ==> (c - 1) * limit < total)
  {
    var c := Ceil(total as real / limit as real);
    PagesCover(total, limit, c);
    if total > 0 {
      PagesCover(total, limit, c - 1);
    }
  }

  /** c pages of `limit` hold `total` exactly when c is at least the quotient. */
  lemma PagesCover(total: int, limit: int, c: int)
    requires limit > 0
    ensures total <= c * limit <==> total as real / limit as real <= c as real
  {
    var l := limit as real;
    var q := total as real / l;
    assert q * l == total as real;
    RealOfProduct(c, limit);
    if q <= c as real {
      MulLe(q, c as real, l);
    } else {
      MulLt(c as real, q, l);
    }
  }

  /** With a positive limit, product i of the matches is on page i / limit + 1, and that page exists. */
  lemma EveryMatchOnOnePage(total: nat, limit: int, i: nat)
    requires limit > 0 && i < total
    ensures var page := i / limit + 1;
      && 1 <= page <= Pages(total, limit).value
      && Skip(page, limit) <= i < Skip(page, limit) + limit
  {
    var page := i / limit + 1;
    var pages := Pages(total, limit).value;
    assert (page - 1) * limit <= i;
    assert total <= pages * limit;
  }

  /**
   * The page the database returns: skip, then take `limit` (0 takes all, a negative limit
   * takes its magnitude); a negative skip is an error.
   */
  function PageSlice<T>(matches: seq<T>, skip: int, limit: int): (r: Option<seq<T>>)
    ensures skip < 0 <==> r.None?
    ensures r.Some? ==> |r.value| <= (if limit == 0 then |matches| else if limit > 0 then limit else -limit)
    ensures r.Some? ==> forall k :: 0 <= k < |r.value| ==> skip + k < |matches| && r.value[k] == matches[skip + k]
    ensures r.Some? ==>
              var available := if skip < |matches| then |matches| - skip else 0;
              var n := if limit >= 0 then limit else -limit;
              |r.value| == if limit == 0 || n > available then available else n
  {
    if skip < 0 then None
    else
      var from := if skip < |matches| then skip else |matches|;
      var n := if limit >= 0 then limit else -limit;
      var to := if limit == 0 || from + n > |matches| then |matches| else from + n;
      Some(matches[from..to])
  }

  /** The products matching a query, in the order given (the database's sort order). */
  function Filter(sorted: seq<ProductDoc>, q: Query): (r: seq<ProductDoc>)
    ensures forall p :: p in r <==> p in sorted && Matches(q, p)
  {
    if sorted == [] then []
    else
      assert forall p :: p in sorted <==> p == sorted[0] || p in sorted[1..];
      (if Matches(q, sorted[0]) then [sorted[0]] else []) + Filter(sorted[1..], q)
  }

  /** One product is kept, once, exactly when it matches. */
  lemma FilterSingle(p: ProductDoc, q: Query)
    ensures Filter([p], q) == if Matches(q, p) then [p] else []
  {
    assert [p][1..] == [];
  }

  /**
   * Filtering works product by product: the matches of a concatenation are the matches of
   * each part, in order.  With `FilterSingle` this fixes the order and the number of copies.
   */
  lemma {:induction false} FilterAppend(a: seq<ProductDoc>, b: seq<ProductDoc>, q: Query)
    ensures Filter(a + b, q) == Filter(a, q) + Filter(b, q)
  {
    if a == [] {
      assert a + b == b;
    } else {
      assert (a + b)[0] == a[0] && (a + b)[1..] == a[1..] + b;
      FilterAppend(a[1..], b, q);
    }
  }

  /** The JSON body of a listing: the page and `{ page, limit, total, pages }`. */
  datatype Listing = Listing(data: seq<ProductDoc>, page: int, limit: int, total: nat, pages: Option<int>)

  /**
   * GET /api/products over the store in the requested sort order: the page of matches and
   * the pagination block, or None for the 500 a negative skip causes.
   */
  function List(sorted: seq<ProductDoc>, q: Query, params: ListParams): (r: Option<Listing>)
    ensures r.Some? ==> forall p :: p in r.value.data ==> Matches(q, p) && p in sorted
    ensures r.Some? ==> r.value.total == |Filter(sorted, q)| && r.value.pages == Pages(r.value.total, LimitOf(params))
    ensures r.None? <==> Skip(PageOf(params), LimitOf(params)) < 0
    ensures r.Some? ==> r.value.page == PageOf(params) && r.value.limit == LimitOf(params)
    ensures r.Some? ==> Some(r.value.data) == PageSlice(Filter(sorted, q), Skip(PageOf(params), LimitOf(params)), LimitOf(params))
  {
    var matches := Filter(sorted, q);
    var page := PageOf(params);
    var limit := LimitOf(params);
    match PageSlice(matches, Skip(page, limit), limit)
    case None => None
    case Some(data) =>
      assert forall p :: p in data ==> p in matches;
      Some(Listing(data, page, limit, |matches|, Pages(|matches|, limit)))
  }

  /** Without page or limit parameters, the first ten matches are listed and nothing fails. */
  lemma DefaultListing(sorted: seq<ProductDoc>, q: Query, params: ListParams)
    requires params.page.None? && params.limit.None?
    ensures List(sorted, q, params).Some?
    ensures var l := List(sorted, q, params).value;
      && l.page == 1 && l.limit == 10
      && l.data == Filter(sorted, q)[..if l.total < 10 then l.total else 10]
  {
    var matches := Filter(sorted, q);
    var data := List(sorted, q, params).value.data;
    var n := if |matches| < 10 then |matches| else 10;
    assert |data| == n;
    assert forall k :: 0 <= k < n ==> data[k] == matches[k];
  }
}
