/**
 * Values shared by every part of the shop model: identities, the caller
 * supplied by the authentication layer, the error kinds the controllers
 * raise, and the JavaScript `x || fallback` idiom the controllers use to
 * patch records.
 */
module Common {

  /** Document identities (ObjectId strings) of products, users, orders and categories. */
  type Id = string

  datatype Option<+T> = None | Some(value: T)

  /** The lower-case form of an ASCII letter; any other character is kept. */
  function LowerAscii(c: char): char {
    if 'A' <= c <= 'Z' then (c as int + 32) as char else c
  }

  /**
   * An id as the store holds it. `findById` and a pushed reference cast the
   * request's string to an ObjectId, which reads hex digits in either case;
   * the ObjectId's `toString()` is lower-case.
   */
  function Canon(id: string): (c: string)
    ensures |c| == |id|
    ensures forall i :: 0 <= i < |c| ==> !('A' <= c[i] <= 'Z')
    ensures forall i :: 0 <= i < |c| ==> c[i] == LowerAscii(id[i])
  {
    if id == [] then [] else [LowerAscii(id[0])] + Canon(id[1..])
  }

  /** Casting a cast id again changes nothing. */
  lemma {:induction false} CanonIdempotent(id: string)
    ensures Canon(Canon(id)) == Canon(id)
  {
    if id != [] {
      CanonIdempotent(id[1..]);
      assert Canon(id)[1..] == Canon(id[1..]);
    }
  }

  /** An id without upper-case letters is its own cast. */
  lemma {:induction false} CanonOfLower(id: string)
    requires forall i :: 0 <= i < |id| ==> !('A' <= id[i] <= 'Z')
    ensures Canon(id) == id
  {
    if id != [] {
      CanonOfLower(id[1..]);
      assert id == [id[0]] + id[1..];
    }
  }

  /** What a controller answers: the document it sends, or the error it throws. */
  datatype Result<+T> = Ok(value: T) | Err(error: Error)

  /** The paths of the Product schema that carry validators, in schema order. */
  datatype Path = Name | Description | Price | Category | Stock

  /**
   * Every failure a controller raises. The comment on each names the HTTP
   * status the controller sets before throwing, where it sets one.
   */
  datatype Error =
    | ProductNotFound            // 404 "Product not found"
    | NotEnoughStock             // 400 "Not enough stock available"
    | CartNotFound               // 404 "Cart not found"
    | ItemNotFound               // 404 "Item not found in cart"
    | NoItemsInCart              // 400 "No items in cart"
    | NotEnoughStockFor(name: string) // 400 "Not enough stock for <name>"
    | ProductUnavailable         // a cart line whose product no longer exists: populate gives null and reading its stock throws
    | OrderNotFound              // 404 "Order not found"
    | NotAuthorized              // 401 "Not authorized"
    | ValidationFailed(paths: seq<Path>) // the Product schema rejected the document; the failing paths in schema order
    | NegativeSkip               // the store refuses a negative skip in a paged query

  /** The authenticated user as the authentication middleware hands it over. */
  datatype Caller = Caller(userId: Id, role: string)

  predicate IsAdmin(c: Caller) { c.role == "admin" }

  /** JavaScript truthiness of an optional string: present and not "". */
  predicate TruthyStr(x: Option<string>) { x.Some? && x.value != "" }

  /**
   * How a request body arrives. A JSON body carries numbers as numbers; a
   * multipart form (the only way files can be sent) carries every field as
   * text, so a number arrives as its decimal numeral.
   */
  datatype Body = Json | Multipart

  /**
   * JavaScript truthiness of an optional numeric field: in a JSON body,
   * present and not 0 (NaN is not modelled); in a multipart body, present,
   * since a numeral such as "0" is a non-empty string.
   */
  predicate TruthyNum(x: Option<int>, body: Body) { x.Some? && (body == Multipart || x.value != 0) }

  /** `x || fallback` for a string input. */
  function StrOr(x: Option<string>, fallback: string): (r: string)
    ensures TruthyStr(x) ==> r == x.value
    ensures !TruthyStr(x) ==> r == fallback
    ensures r == "" ==> fallback == ""
  {
    if TruthyStr(x) then x.value else fallback
  }

  /** `x || fallback` for a numeric field; the store casts a numeral to its number. */
  function NumOr(x: Option<int>, body: Body, fallback: int): (r: int)
    ensures TruthyNum(x, body) ==> r == x.value
    ensures !TruthyNum(x, body) ==> r == fallback
    ensures body == Json && r == 0 ==> fallback == 0
    ensures body == Multipart && x.Some? ==> r == x.value
  {
    if TruthyNum(x, body) then x.value else fallback
  }
}
