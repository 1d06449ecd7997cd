/**
 * The catalog logic of controllers/productController.js: the page
 * arithmetic and the filters of getProducts, and the field merge of
 * updateProduct.
 */
module CatalogRules {
  import opened Common
  import opened ProductModel

  const PageSize: nat := 10

  /** `Number(req.query.page)`: NaN (also for an absent parameter) or a number. */
  datatype PageInput = PageNaN | PageNumber(n: int)

  /** The listing query; the keyword is matched by the store's case-insensitive regex. */
  datatype Query = Query(page: PageInput, keyword: Option<string>, category: Option<Id>)

  /** A stored document as a query returns it: its id and its fields. */
  datatype Entry = Entry(id: Id, product: Product)

  /** What getProducts sends. */
  datatype Listing = Listing(products: seq<Entry>, page: int, pages: nat)

  /** `Number(req.query.page) || 1`. */
  function PageOf(input: PageInput): (page: int)
    ensures page != 0
    ensures input.PageNumber? && input.n != 0 ==> page == input.n
    ensures input.PageNaN? || input.n == 0 ==> page == 1
  {
    match input
    case PageNaN => 1
    case PageNumber(n) => if n != 0 then n else 1
  }

  /** `Math.ceil(count / pageSize)`. */
  function PageCount(count: nat): (pages: nat)
    ensures pages == 0 <==> count == 0
    ensures pages > 0 ==> PageSize * (pages - 1) < count <= PageSize * pages
  {
    (count + PageSize - 1) / PageSize
  }

  /** `.skip(skip).limit(pageSize)` on an already filtered sequence. */
  function Window(filtered: seq<Entry>, skip: nat): (r: seq<Entry>)
    ensures |r| <= PageSize
    ensures skip < |filtered| ==> |r| == if |filtered| - skip < PageSize then |filtered| - skip else PageSize
    ensures skip >= |filtered| ==> r == []
    ensures forall i :: 0 <= i < |r| ==> skip + i < |filtered| && r[i] == filtered[skip + i]
    ensures forall e :: e in r ==> e in filtered
  {
    if skip >= |filtered| then []
    else if |filtered| - skip < PageSize then filtered[skip..]
    else filtered[skip..skip + PageSize]
  }

  /** The `{ ...keyword, ...category }` condition on one product; an absent or empty parameter imposes nothing. */
  predicate Matches(q: Query, nameMatches: (string, string) -> bool, e: Entry) {
    && (TruthyStr(q.keyword) ==> nameMatches(q.keyword.value, e.product.name))
    && (TruthyStr(q.category) ==> e.product.category == q.category.value)
  }

  /** The products of the collection, in its order, that the query selects. */
  function Filter(ps: seq<Entry>, q: Query, nameMatches: (string, string) -> bool): (r: seq<Entry>)
    ensures |r| <= |ps|
    ensures forall e :: e in r <==> e in ps && Matches(q, nameMatches, e)
  {
    if ps == [] then []
    else (if Matches(q, nameMatches, ps[0]) then [ps[0]] else []) + Filter(ps[1..], q, nameMatches)
  }

  /** Filtering distributes over concatenation: the selected documents keep the collection's order. */
  lemma {:induction false} FilterConcat(a: seq<Entry>, b: seq<Entry>, q: Query, nameMatches: (string, string) -> bool)
    ensures Filter(a + b, q, nameMatches) == Filter(a, q, nameMatches) + Filter(b, q, nameMatches)
  {
    if a != [] {
      assert (a + b)[1..] == a[1..] + b;
      FilterConcat(a[1..], b, q, nameMatches);
    } else {
      assert a + b == b;
    }
  }

  /** One document is selected exactly when it matches, and then once. */
  lemma FilterOne(e: Entry, q: Query, nameMatches: (string, string) -> bool)
    ensures Filter([e], q, nameMatches) == if Matches(q, nameMatches, e) then [e] else []
  {
    assert [e][1..] == [];
  }

  /** The keyword and category conditions combine as a conjunction: filtering by both is filtering by one, then the other. */
  lemma {:induction false} FilterConjunctive(ps: seq<Entry>, q: Query, nameMatches: (string, string) -> bool)
    ensures Filter(ps, q, nameMatches)
         == Filter(Filter(ps, q.(category := None), nameMatches), q.(keyword := None), nameMatches)
  {
    if ps != [] {
      FilterConjunctive(ps[1..], q, nameMatches);
      var kw := q.(category := None);
      var fk := Filter(ps, kw, nameMatches);
      if Matches(kw, nameMatches, ps[0]) {
        assert fk[1..] == Filter(ps[1..], kw, nameMatches);
        assert fk == [ps[0]] + fk[1..];
      } else {
        assert fk == Filter(ps[1..], kw, nameMatches);
      }
    }
  }

  /** With neither keyword nor category, every product is listed. */
  lemma {:induction false} FilterWithoutConditions(ps: seq<Entry>, q: Query, nameMatches: (string, string) -> bool)
    requires !TruthyStr(q.keyword) && !TruthyStr(q.category)
    ensures Filter(ps, q, nameMatches) == ps
  {
    if ps != [] {
      FilterWithoutConditions(ps[1..], q, nameMatches);
      assert ps == [ps[0]] + ps[1..];
    }
  }

  /**
   * getProducts over the collection in its natural order. A page below 1
   * gives a negative skip, which the store refuses.
   */
  function ListProducts(all: seq<Entry>, q: Query, nameMatches: (string, string) -> bool): (r: Result<Listing>)
    ensures r.Err? <==> PageOf(q.page) < 1
    ensures r.Err? ==> r.error == NegativeSkip
    ensures r.Ok? ==>
      var selected := Filter(all, q, nameMatches);
      var skip := PageSize * (PageOf(q.page) - 1);
      && r.value.page == PageOf(q.page)
      && r.value.pages == PageCount(|selected|)
      && |r.value.products| == (if |selected| <= skip then 0
                                else if |selected| - skip < PageSize then |selected| - skip
                                else PageSize)
      && (forall i :: 0 <= i < |r.value.products| ==>
            skip + i < |selected| && r.value.products[i] == selected[skip + i])
      && (forall e :: e in r.value.products ==> e in all && Matches(q, nameMatches, e))
  {
    var page := PageOf(q.page);
    var skip := PageSize * (page - 1);
    if skip < 0 then Err(NegativeSkip)
    else
      var selected := Filter(all, q, nameMatches);
      Ok(Listing(Window(selected, skip), page, PageCount(|selected|)))
  }

  /**
   * The `x || product.x` assignments of updateProduct (the name setter trims
   * what is assigned; the truthiness of a number depends on the body it came
   * in), and the images replaced only when files were uploaded.
   */
  function Merge(p: Product, input: ProductInput, body: Body, uploads: seq<Image>): Product {
    p.(name := Trim(StrOr(input.name, p.name)),
       description := StrOr(input.description, p.description),
       price := NumOr(input.price, body, p.price),
       category := StrOr(input.category, p.category),
       stock := NumOr(input.stock, body, p.stock),
       images := if |uploads| > 0 then uploads else p.images)
  }

  /**
   * A truthy input replaces its field and any other input keeps the stored
   * value. In a JSON body 0 is falsy, so 0 can never be written into price
   * or stock; in a multipart body any given number is written, 0 included.
   * "" is never written into the description or the category; the name
   * becomes "" only from a truthy input that is all white space, which the
   * save then rejects. Images change only when files were uploaded; rating
   * and review count never change.
   */
  lemma MergeFields(p: Product, input: ProductInput, body: Body, uploads: seq<Image>)
    requires Valid(p)
    ensures var m := Merge(p, input, body, uploads);
      && m.name == (if TruthyStr(input.name) then Trim(input.name.value) else p.name)
      && m.description == (if TruthyStr(input.description) then input.description.value else p.description)
      && m.price == (if TruthyNum(input.price, body) then input.price.value else p.price)
      && m.category == (if TruthyStr(input.category) then input.category.value else p.category)
      && m.stock == (if TruthyNum(input.stock, body) then input.stock.value else p.stock)
      && (body == Json ==> (m.price == 0 ==> p.price == 0) && (m.stock == 0 ==> p.stock == 0))
      && (body == Multipart && input.price.Some? ==> m.price == input.price.value)
      && (body == Multipart && input.stock.Some? ==> m.stock == input.stock.value)
      && (m.name == "" ==> TruthyStr(input.name) && Trim(input.name.value) == "")
      && m.description != "" && m.category != ""
      && m.images == (if |uploads| > 0 then uploads else p.images)
      && m.ratings == p.ratings && m.numOfReviews == p.numOfReviews
  {
    TrimOfTrimmed(p.name);
  }

  /** A request with no truthy field and no files leaves a stored product exactly as it was. */
  lemma {:induction false} MergeNothing(p: Product, input: ProductInput, body: Body)
    requires Valid(p)
    requires !TruthyStr(input.name) && !TruthyStr(input.description) && !TruthyNum(input.price, body)
    requires !TruthyStr(input.category) && !TruthyNum(input.stock, body)
    ensures Merge(p, input, body, []) == p
  {
    TrimOfTrimmed(p.name);
  }

  /** A request carrying only a positive price changes the price and nothing else, and the save succeeds. */
  lemma {:induction false} PriceOnlyUpdate(p: Product, price: int, body: Body)
    requires Valid(p) && price > 0
    ensures SaveMerged(p, ProductInput(None, None, Some(price), None, None), body, []) == Ok(p.(price := price))
  {
    TrimOfTrimmed(p.name);
    var m := Merge(p, ProductInput(None, None, Some(price), None, None), body, []);
    assert m == p.(price := price);
    assert Conforms(m);
  }

  /**
   * A multipart form sends stock 0 as the text "0", which is truthy: the
   * product is saved with stock 0, where the same request as JSON changes nothing.
   */
  lemma {:induction false} MultipartZeroStock(p: Product)
    requires Valid(p)
    ensures SaveMerged(p, ProductInput(None, None, None, None, Some(0)), Multipart, []) == Ok(p.(stock := 0))
    ensures SaveMerged(p, ProductInput(None, None, None, None, Some(0)), Json, []) == Ok(p)
  {
    TrimOfTrimmed(p.name);
    var input := ProductInput(None, None, None, None, Some(0));
    var m := Merge(p, input, Multipart, []);
    assert m == p.(stock := 0);
    assert Conforms(m);
    MergeNothing(p, input, Json);
  }

  /**
   * `product.save()` after the merge: the validators run on the merged
   * document; a document they accept is stored and is valid.
   */
  function SaveMerged(p: Product, input: ProductInput, body: Body, uploads: seq<Image>): (r: Result<Product>)
    ensures r.Ok? <==> Conforms(Merge(p, input, body, uploads))
    ensures r.Ok? ==> r.value == Merge(p, input, body, uploads) && Valid(r.value)
    ensures r.Err? ==> r.error == ValidationFailed(Errors(Merge(p, input, body, uploads)))
  {
    var m := Merge(p, input, body, uploads);
    TrimShape(StrOr(input.name, p.name));
    if Errors(m) == [] then Ok(m) else Err(ValidationFailed(Errors(m)))
  }
}
