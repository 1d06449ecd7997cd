/**
 * The Product document of models/Product.js: its fields, the `trim`
 * setter on the name, the validators the schema runs when a document is
 * saved (required fields, `min: 0` on price and stock) and the defaults
 * (stock, ratings and numOfReviews are 0 when omitted).
 */
module ProductModel {
  import opened Common

  /** A reference to an image held by the external image host. */
  datatype Image = Image(publicId: string, url: string)

  datatype Product = Product(
    name: string,
    description: string,
    price: int,            // in cents
    category: Id,
    stock: int,
    images: seq<Image>,
    ratings: int,
    numOfReviews: int)

  /** The fields a client may supply when creating a product; None is an omitted field. */
  datatype ProductInput = ProductInput(
    name: Option<string>,
    description: Option<string>,
    price: Option<int>,
    category: Option<Id>,
    stock: Option<int>)

  /** The characters String.prototype.trim removes: ECMAScript WhiteSpace and LineTerminator. */
  predicate IsSpace(c: char) {
    || c == '\t' || c == '\n' || c == '\U{000B}' || c == '\U{000C}' || c == '\r'
    || c == ' ' || c == '\U{00A0}' || c == '\U{1680}'
    || ('\U{2000}' <= c <= '\U{200A}')
    || c == '\U{2028}' || c == '\U{2029}' || c == '\U{202F}' || c == '\U{205F}'
    || c == '\U{3000}' || c == '\U{FEFF}'
  }

  /** Drops the leading white space: the result is the suffix that starts at the first other character. */
  function TrimStart(s: string): (r: string)
    ensures |r| <= |s| && r == s[|s| - |r|..]
    ensures r == [] || !IsSpace(r[0])
    ensures forall i :: 0 <= i < |s| - |r| ==> IsSpace(s[i])
  {
    if s != [] && IsSpace(s[0]) then TrimStart(s[1..]) else s
  }

  /** Drops the trailing white space: the result is the prefix that ends at the last other character. */
  function TrimEnd(s: string): (r: string)
    ensures |r| <= |s| && r == s[..|r|]
    ensures r == [] || !IsSpace(r[|r| - 1])
    ensures forall i :: |r| <= i < |s| ==> IsSpace(s[i])
  {
    if s != [] && IsSpace(s[|s| - 1]) then TrimEnd(s[..|s| - 1]) else s
  }

  /** The `trim: true` setter on the name. */
  function Trim(s: string): string {
    TrimEnd(TrimStart(s))
  }

  /** A string that neither starts nor ends with white space. */
  predicate Trimmed(s: string) {
    s == [] || (!IsSpace(s[0]) && !IsSpace(s[|s| - 1]))
  }

  /** Trim leaves a string without white space at either end, and no longer than it was. */
  lemma TrimShape(s: string)
    ensures Trimmed(Trim(s))
    ensures |Trim(s)| <= |s|
    ensures Trim(s) == [] <==> forall i :: 0 <= i < |s| ==> IsSpace(s[i])
  {
    var t := TrimStart(s);
    var r := TrimEnd(t);
    if r != [] {
      assert r[0] == t[0];
    }
  }

  /** Trimming a string with no white space at its ends changes nothing. */
  lemma TrimOfTrimmed(s: string)
    requires Trimmed(s)
    ensures Trim(s) == s
  {
  }

  /** Trimming twice is trimming once, so re-assigning a stored name keeps it. */
  lemma {:induction false} TrimIdempotent(s: string)
    ensures Trim(Trim(s)) == Trim(s)
  {
    TrimShape(s);
    TrimOfTrimmed(Trim(s));
  }

  /** What the schema's validators accept of a document, whose name the setter has already trimmed. */
  predicate Conforms(p: Product) {
    && p.name != ""
    && p.description != ""
    && p.price >= 0
    && p.category != ""
    && p.stock >= 0
  }

  /** A stored product: accepted by the validators, with the name as the setter leaves it. */
  predicate Valid(p: Product) {
    Conforms(p) && Trimmed(p.name)
  }

  /** The failing paths in schema order, given which of the five validated paths fail. */
  function Report(name: bool, description: bool, price: bool, category: bool, stock: bool): (paths: seq<Path>)
    ensures Name in paths <==> name
    ensures Description in paths <==> description
    ensures Price in paths <==> price
    ensures Category in paths <==> category
    ensures Stock in paths <==> stock
    ensures paths == [] <==> !name && !description && !price && !category && !stock
  {
    (if name then [Name] else [])
    + (if description then [Description] else [])
    + (if price then [Price] else [])
    + (if category then [Category] else [])
    + (if stock then [Stock] else [])
  }

  /** The paths the validators report for a document about to be saved. */
  function Errors(p: Product): (paths: seq<Path>)
    ensures paths == [] <==> Conforms(p)
    ensures Name in paths <==> p.name == ""
    ensures Description in paths <==> p.description == ""
    ensures Price in paths <==> p.price < 0
    ensures Category in paths <==> p.category == ""
    ensures Stock in paths <==> p.stock < 0
  {
    Report(p.name == "", p.description == "", p.price < 0, p.category == "", p.stock < 0)
  }

  /**
   * The paths the validators report for a new document built from the
   * input: a missing field fails `required`, and so does a string field
   * that is empty (for the name, after the setter trims it).
   */
  function InputErrors(input: ProductInput): (paths: seq<Path>)
    ensures Name in paths <==> input.name.None? || Trim(input.name.value) == ""
    ensures Description in paths <==> !TruthyStr(input.description)
    ensures Price in paths <==> input.price.None? || input.price.value < 0
    ensures Category in paths <==> !TruthyStr(input.category)
    ensures Stock in paths <==> input.stock.Some? && input.stock.value < 0
    ensures paths == [] <==>
      && input.name.Some? && Trim(input.name.value) != ""
      && TruthyStr(input.description)
      && input.price.Some? && input.price.value >= 0
      && TruthyStr(input.category)
      && (input.stock.None? || input.stock.value >= 0)
  {
    Report(input.name.None? || Trim(input.name.value) == "",
           !TruthyStr(input.description),
           input.price.None? || input.price.value < 0,
           !TruthyStr(input.category),
           input.stock.Some? && input.stock.value < 0)
  }

  /**
   * Product.create: apply the name setter and the defaults, then run the
   * validators. The images come from the image host, one per uploaded file.
   */
  function Build(input: ProductInput, images: seq<Image>): (r: Result<Product>)
    ensures r.Ok? <==>
      && input.name.Some? && Trim(input.name.value) != ""
      && TruthyStr(input.description)
      && input.price.Some? && input.price.value >= 0
      && TruthyStr(input.category)
      && (input.stock.None? || input.stock.value >= 0)
    ensures r.Err? ==> r.error == ValidationFailed(InputErrors(input))
    ensures r.Ok? ==> Valid(r.value)
    ensures r.Ok? ==>
      && r.value.name == Trim(input.name.value)
      && r.value.description == input.description.value
      && r.value.category == input.category.value
      && r.value.price == input.price.value
      && r.value.stock == (if input.stock.Some? then input.stock.value else 0)
      && r.value.ratings == 0 && r.value.numOfReviews == 0
      && r.value.images == images
  {
    var errs := InputErrors(input);
    if errs != [] then Err(ValidationFailed(errs))
    else
      var name := Trim(input.name.value);
      TrimShape(input.name.value);
      Ok(Product(name, input.description.value, input.price.value, input.category.value,
                 if input.stock.Some? then input.stock.value else 0, images, 0, 0))
  }
}
