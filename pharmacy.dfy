/**
 * The storefront page: the search-and-category filter over the fetched product
 * list, the category list for the drop-down, the message shown when nothing is
 * listed, the cart (a list of lines replaced wholesale by add, remove and update)
 * with its badge, and the wiring of a product tile's add button to the cart.
 * The product list is an input: fetching it is not modelled.
 */
module Pharmacy {
  import opened Optional
  import opened Text
  import opened Sequences
  import opened Products
  import CartModal
  import ProductCard

  /*** The filter effect ***/

  /** The lower-cased name or description contains the lower-cased search term as typed. */
  predicate MatchesSearch(p: Product, searchTerm: string)
    ensures searchTerm == "" ==> MatchesSearch(p, searchTerm)
    ensures MatchesSearch(p, searchTerm) ==> |searchTerm| <= |p.name| || |searchTerm| <= |p.description|
  {
    || Contains(ToLower(p.name), ToLower(searchTerm))
    || Contains(ToLower(p.description), ToLower(searchTerm))
  }

  /** The category is present, non-empty, and equal to the selected one ignoring case. */
  predicate MatchesCategory(p: Product, selected: string)
    ensures MatchesCategory(p, selected) ==> p.category.Some? && |selected| == |p.category.value| >= 1
  {
    && p.category.Some?
    && p.category.value != ""
    && ToLower(p.category.value) == ToLower(selected)
  }

  function SearchFilter(searchTerm: string): Product -> bool {
    (p: Product) => MatchesSearch(p, searchTerm)
  }

  function CategoryFilter(selected: string): Product -> bool {
    (p: Product) => MatchesCategory(p, selected)
  }

  /** The effect that recomputes `filteredProducts`: the search pass, then the category pass. */
  function FilterProducts(products: seq<Product>, searchTerm: string, selected: string): (r: seq<Product>)
    ensures |r| <= |products|
    ensures forall i :: 0 <= i < |r| ==> r[i] in products
    ensures forall i :: 0 <= i < |r| ==> selected != "all" ==> MatchesCategory(r[i], selected)
  {
    var bySearch := if Trim(searchTerm) != "" then Filter(products, SearchFilter(searchTerm)) else products;
    if selected != "all" then Filter(bySearch, CategoryFilter(selected)) else bySearch
  }

  /** Whether a product passes both filters: the two conditions combine as AND. */
  predicate Shown(p: Product, searchTerm: string, selected: string) {
    && (Trim(searchTerm) != "" ==> MatchesSearch(p, searchTerm))
    && (selected != "all" ==> MatchesCategory(p, selected))
  }

  function ShownFilter(searchTerm: string, selected: string): Product -> bool {
    (p: Product) => Shown(p, searchTerm, selected)
  }

  /** The two passes are a single stable filter by the conjunction of the conditions. */
  lemma FilterProductsIsOnePass(products: seq<Product>, searchTerm: string, selected: string)
    ensures FilterProducts(products, searchTerm, selected) == Filter(products, ShownFilter(searchTerm, selected))
  {
    var search, category, shown := SearchFilter(searchTerm), CategoryFilter(selected), ShownFilter(searchTerm, selected);
    if Trim(searchTerm) != "" && selected != "all" {
      FilterFilter(products, search, category, shown);
    } else if Trim(searchTerm) != "" {
      FilterExtensional(products, search, shown);
    } else if selected != "all" {
      FilterExtensional(products, category, shown);
    } else {
      FilterAll(products, shown);
    }
  }

  /**
   * The listed products are an order-preserving subsequence of the product list;
   * each listed product passes both filters, each product that passes both is
   * listed, and a blank term with category "all" lists everything.
   */
  lemma FilterProductsSpec(products: seq<Product>, searchTerm: string, selected: string)
    ensures IsSubsequence(FilterProducts(products, searchTerm, selected), products)
    ensures forall p :: p in FilterProducts(products, searchTerm, selected) ==> p in products && Shown(p, searchTerm, selected)
    ensures forall p :: p in products && Shown(p, searchTerm, selected) ==> p in FilterProducts(products, searchTerm, selected)
    ensures AllSpace(searchTerm) && selected == "all" ==> FilterProducts(products, searchTerm, selected) == products
  {
    FilterProductsIsOnePass(products, searchTerm, selected);
    FilterIsSubsequence(products, ShownFilter(searchTerm, selected));
    TrimEmptyIffBlank(searchTerm);
    var r := FilterProducts(products, searchTerm, selected);
    forall p | p in r ensures p in products && Shown(p, searchTerm, selected) {
      var i :| 0 <= i < |r| && r[i] == p;
    }
    forall p | p in products && Shown(p, searchTerm, selected) ensures p in r {
      var i :| 0 <= i < |products| && products[i] == p;
    }
  }

  /**
   * The search runs on the term as typed, not on the trimmed one: a product found
   * by its full name is no longer found once a trailing space is typed after it.
   */
  lemma SearchUsesUntrimmedTerm(p: Product, word: string)
    requires ToLower(p.name) == ToLower(word) && !AllSpace(word) && |p.description| <= |word|
    ensures Trim(word + " ") != "" && !Shown(p, word + " ", "all")
    ensures Shown(p, word, "all")
  {
    var term := word + " ";
    assert !MatchesSearch(p, term) by {
      var lowTerm := ToLower(term);
      assert |lowTerm| > |ToLower(p.name)| && |lowTerm| > |ToLower(p.description)|;
    }
    assert Trim(term) != "" by {
      assert !AllSpace(term) by {
        var i :| 0 <= i < |word| && !IsSpace(word[i]);
        assert term[i] == word[i];
      }
      TrimEmptyIffBlank(term);
    }
    assert MatchesSearch(p, word) by {
      var name := ToLower(p.name);
      assert name[0..|ToLower(word)|] == name;
      assert OccursAt(name, ToLower(word), 0);
    }
  }

  /** The search ignores case: a term typed in any case lists the same products as its lower-case form. */
  lemma SearchIgnoresCase(products: seq<Product>, searchTerm: string, selected: string)
    ensures FilterProducts(products, ToLower(searchTerm), selected) == FilterProducts(products, searchTerm, selected)
  {
    var lowered := ToLower(searchTerm);
    ToLowerIdempotent(searchTerm);
    FilterExtensional(products, SearchFilter(lowered), SearchFilter(searchTerm));
    assert AllSpace(lowered) <==> AllSpace(searchTerm) by {
      forall i | 0 <= i < |searchTerm| ensures IsSpace(lowered[i]) <==> IsSpace(searchTerm[i]) {
        if IsUpper(searchTerm[i]) {
          assert lowered[i] == Lower(searchTerm[i]);
        }
      }
    }
    TrimEmptyIffBlank(lowered);
    TrimEmptyIffBlank(searchTerm);
  }

  /*** The category drop-down ***/

  /** `products.map(p => p.category).filter(c => typeof c === "string")`. */
  function CategoryStrings(products: seq<Product>): (r: seq<string>)
    ensures forall c :: c in r <==> exists i :: 0 <= i < |products| && products[i].category == Some(c)
  {
    if products == [] then []
    else
      var rest := CategoryStrings(products[1..]);
      assert forall i :: 1 <= i < |products| ==> products[i] == products[1..][i - 1];
      (if products[0].category.Some? then [products[0].category.value] else []) + rest
  }

  lemma {:induction false} CategoryStringsAppend(a: seq<Product>, b: seq<Product>)
    ensures CategoryStrings(a + b) == CategoryStrings(a) + CategoryStrings(b)
  {
    if a == [] {
      assert a + b == b;
    } else {
      assert (a + b)[0] == a[0];
      assert (a + b)[1..] == a[1..] + b;
      CategoryStringsAppend(a[1..], b);
    }
  }

  /** `["all", ...new Set(categories)]`. */
  function Categories(products: seq<Product>): (r: seq<string>)
    ensures |r| >= 1 && r[0] == "all"
    ensures forall i :: 1 <= i < |r| ==> r[i] in CategoryStrings(products)
  {
    ["all"] + Distinct(CategoryStrings(products))
  }

  /**
   * "all" comes first; after it each string category appears exactly once, and
   * nothing else does. With no products the list is just ["all"].
   */
  lemma CategoriesSpec(products: seq<Product>)
    ensures Categories(products)[0] == "all"
    ensures NoDuplicates(Categories(products)[1..])
    ensures forall c :: c in Categories(products)[1..] <==>
              exists i :: 0 <= i < |products| && products[i].category == Some(c)
    ensures products == [] ==> Categories(products) == ["all"]
  {
    var r := Categories(products);
    var d := Distinct(CategoryStrings(products));
    assert r[1..] == d;
    forall c ensures c in d <==> c in CategoryStrings(products) {
      if c in d {
        var i :| 0 <= i < |d| && d[i] == c;
      }
      if c in CategoryStrings(products) {
        var i :| 0 <= i < |CategoryStrings(products)| && CategoryStrings(products)[i] == c;
      }
    }
  }

  /**
   * Categories are listed in order of first occurrence: the list for a prefix of
   * the products is a prefix of the list for all of them.
   */
  lemma CategoriesFirstOccurrenceOrder(products: seq<Product>, k: nat)
    requires k <= |products|
    ensures Categories(products[..k]) <= Categories(products)
  {
    assert products == products[..k] + products[k..];
    CategoryStringsAppend(products[..k], products[k..]);
    var s := CategoryStrings(products);
    var m := |CategoryStrings(products[..k])|;
    assert s[..m] == CategoryStrings(products[..k]);
    DistinctPrefix(s, m);
  }

  /*** The empty-result message ***/

  datatype Listing = Cards(products: seq<Product>) | NothingListed(message: string)

  /** The cards, or the message chosen by whether the search box holds any text at all. */
  function ListingOf(filtered: seq<Product>, searchTerm: string): (r: Listing)
    ensures r.Cards? <==> filtered != []
    ensures r.Cards? ==> r.products == filtered
    ensures filtered == [] && searchTerm != "" ==>
              r == NothingListed("No products found matching \"" + searchTerm + "\"")
    ensures filtered == [] && searchTerm == "" ==> r == NothingListed("No products available in this category")
  {
    if |filtered| > 0 then Cards(filtered)
    else if searchTerm != "" then NothingListed("No products found matching \"" + searchTerm + "\"")
    else NothingListed("No products available in this category")
  }

  /**
   * A term made only of spaces is ignored by the filter, yet, when nothing is
   * listed, the message still quotes it as a search.
   */
  lemma BlankTermIgnoredButQuoted(products: seq<Product>, searchTerm: string, selected: string)
    requires searchTerm != "" && AllSpace(searchTerm)
    ensures FilterProducts(products, searchTerm, selected) == FilterProducts(products, "", selected)
    ensures FilterProducts(products, searchTerm, selected) == [] ==>
              ListingOf([], searchTerm) == NothingListed("No products found matching \"" + searchTerm + "\"")
  {
    TrimEmptyIffBlank(searchTerm);
    TrimEmptyIffBlank("");
  }

  /*** The cart ***/

  predicate HasLine(cart: seq<CartLine>, id: int) {
    exists i :: 0 <= i < |cart| && cart[i].Id() == id
  }

  /** At most one line per product id. */
  predicate UniqueIds(cart: seq<CartLine>) {
    forall i, j :: 0 <= i < j < |cart| ==> cart[i].Id() != cart[j].Id()
  }

  /** The cart invariant: one line per id, every quantity at least 1. */
  predicate ValidCart(cart: seq<CartLine>) {
    && UniqueIds(cart)
    && forall i :: 0 <= i < |cart| ==> cart[i].quantity >= 1
  }

  /** `prevCart.map(item => item.id === id ? { ...item, quantity: item.quantity + extra } : item)`. */
  function MergeQuantity(cart: seq<CartLine>, id: int, extra: int): (r: seq<CartLine>)
    ensures |r| == |cart|
    ensures forall i :: 0 <= i < |r| ==> r[i].item == cart[i].item
    ensures forall i :: 0 <= i < |r| && cart[i].Id() != id ==> r[i] == cart[i]
  {
    seq(|cart|, i requires 0 <= i < |cart| =>
      if cart[i].Id() == id then cart[i].(quantity := cart[i].quantity + extra) else cart[i])
  }

  /** The updater `addToCart` passes to `setCart`. */
  function Added(cart: seq<CartLine>, product: Product, quantity: int): (r: seq<CartLine>)
    ensures HasLine(r, product.id)
    ensures |r| == if HasLine(cart, product.id) then |cart| else |cart| + 1
  {
    if HasLine(cart, product.id) then MergeQuantity(cart, product.id, quantity)
    else
      var r := cart + [CartLine(product, quantity)];
      assert r[|cart|].Id() == product.id;
      r
  }

  function KeepOthers(id: int): CartLine -> bool {
    (line: CartLine) => line.Id() != id
  }

  /** `cart.filter(item => item.id !== id)`. */
  function Removed(cart: seq<CartLine>, id: int): (r: seq<CartLine>)
    ensures |r| <= |cart| && !HasLine(r, id)
  {
    Filter(cart, KeepOthers(id))
  }

  /** `cart.map(item => item.id === id ? { ...item, quantity: n } : item)`. */
  function SetQuantity(cart: seq<CartLine>, id: int, n: int): (r: seq<CartLine>)
    ensures |r| == |cart|
    ensures forall i :: 0 <= i < |r| ==> r[i].item == cart[i].item
    ensures forall i :: 0 <= i < |r| && cart[i].Id() != id ==> r[i] == cart[i]
  {
    seq(|cart|, i requires 0 <= i < |cart| =>
      if cart[i].Id() == id then cart[i].(quantity := n) else cart[i])
  }

  /** `updateCartItem`: below 1 means remove; otherwise set, with no stock clamp. */
  function Updated(cart: seq<CartLine>, id: int, n: int): (r: seq<CartLine>)
    ensures n < 1 ==> |r| <= |cart| && !HasLine(r, id)
    ensures n >= 1 ==> |r| == |cart| && forall i :: 0 <= i < |r| ==> r[i].item == cart[i].item
  {
    if n < 1 then Removed(cart, id) else SetQuantity(cart, id, n)
  }

  /** Adding to an id already in the cart adds to that line only; length, order and other lines stay. */
  lemma AddToExistingLine(cart: seq<CartLine>, product: Product, quantity: int, k: nat)
    requires UniqueIds(cart) && k < |cart| && cart[k].Id() == product.id
    ensures Added(cart, product, quantity) == cart[k := cart[k].(quantity := cart[k].quantity + quantity)]
  {
    var r := Added(cart, product, quantity);
    var expected := cart[k := cart[k].(quantity := cart[k].quantity + quantity)];
    assert |r| == |expected|;
    forall i | 0 <= i < |r| ensures r[i] == expected[i] {
      if i != k {
        assert cart[i].Id() != product.id by {
          if i < k { assert cart[i].Id() != cart[k].Id(); } else { assert cart[k].Id() != cart[i].Id(); }
        }
      }
    }
  }

  /** Adding a new id appends exactly one line, the product's fields plus the quantity. */
  lemma AddNewLine(cart: seq<CartLine>, product: Product, quantity: int)
    requires forall i :: 0 <= i < |cart| ==> cart[i].Id() != product.id
    ensures Added(cart, product, quantity) == cart + [CartLine(product, quantity)]
  {
  }

  /** Adding a positive quantity keeps one line per id and every quantity at least 1. */
  lemma AddKeepsCartValid(cart: seq<CartLine>, product: Product, quantity: int)
    requires ValidCart(cart) && quantity >= 1
    ensures ValidCart(Added(cart, product, quantity))
    ensures HasLine(Added(cart, product, quantity), product.id)
  {
    var r := Added(cart, product, quantity);
    if HasLine(cart, product.id) {
      var k :| 0 <= k < |cart| && cart[k].Id() == product.id;
      AddToExistingLine(cart, product, quantity, k);
      assert r[k].Id() == product.id;
    } else {
      assert r[|cart|].Id() == product.id;
    }
  }

  /** Two adds of the same new product leave a single line holding the sum of both quantities. */
  lemma AddTwiceMerges(cart: seq<CartLine>, product: Product, q1: int, q2: int)
    requires !HasLine(cart, product.id)
    ensures Added(Added(cart, product, q1), product, q2) == cart + [CartLine(product, q1 + q2)]
  {
    var once := Added(cart, product, q1);
    assert once == cart + [CartLine(product, q1)];
    assert once[|cart|].Id() == product.id;
    var twice := Added(once, product, q2);
    assert twice == MergeQuantity(once, product.id, q2);
    assert |twice| == |cart| + 1;
    forall i | 0 <= i < |twice| ensures twice[i] == (cart + [CartLine(product, q1 + q2)])[i] {
      if i < |cart| {
        assert once[i] == cart[i];
        assert cart[i].Id() != product.id;
      }
    }
  }

  /**
   * Removal drops every line with the id and keeps every other line, in order;
   * removing an absent id changes nothing, and the cart invariant survives.
   */
  lemma RemovedSpec(cart: seq<CartLine>, id: int)
    ensures !HasLine(Removed(cart, id), id)
    ensures IsSubsequence(Removed(cart, id), cart)
    ensures forall i :: 0 <= i < |cart| && cart[i].Id() != id ==> cart[i] in Removed(cart, id)
    ensures !HasLine(cart, id) ==> Removed(cart, id) == cart
    ensures ValidCart(cart) ==> ValidCart(Removed(cart, id))
  {
    var r := Removed(cart, id);
    FilterIsSubsequence(cart, KeepOthers(id));
    if !HasLine(cart, id) {
      FilterAll(cart, KeepOthers(id));
    }
    if ValidCart(cart) {
      RemovedKeepsUniqueIds(cart, id);
      forall i | 0 <= i < |r| ensures r[i].quantity >= 1 {
        var j :| 0 <= j < |cart| && cart[j] == r[i];
      }
    }
  }

  lemma {:induction false} RemovedKeepsUniqueIds(cart: seq<CartLine>, id: int)
    requires UniqueIds(cart)
    ensures UniqueIds(Removed(cart, id))
  {
    if cart != [] {
      var tail := cart[1..];
      RemovedKeepsUniqueIds(tail, id);
      var rest := Removed(tail, id);
      if cart[0].Id() != id {
        var r := Removed(cart, id);
        assert r == [cart[0]] + rest;
        forall j | 0 <= j < |rest| ensures rest[j].Id() != cart[0].Id() {
          var m :| 0 <= m < |tail| && tail[m] == rest[j];
          assert cart[m + 1] == tail[m];
        }
      } else {
        assert Removed(cart, id) == rest;
      }
    }
  }

  /** Any value below 1 makes an update a removal. */
  lemma UpdateBelowOneRemoves(cart: seq<CartLine>, id: int, n: int)
    requires n < 1
    ensures Updated(cart, id, n) == Removed(cart, id)
  {
  }

  /**
   * A value of 1 or more replaces the quantity of the matching line, whatever the
   * stock; the length, the order and the other lines stay as they were.
   */
  lemma UpdateSetsQuantity(cart: seq<CartLine>, n: int, k: nat)
    requires UniqueIds(cart) && n >= 1 && k < |cart|
    ensures Updated(cart, cart[k].Id(), n) == cart[k := cart[k].(quantity := n)]
  {
    var id := cart[k].Id();
    var r := Updated(cart, id, n);
    var expected := cart[k := cart[k].(quantity := n)];
    forall i | 0 <= i < |r| ensures r[i] == expected[i] {
      if i != k {
        assert cart[i].Id() != id by {
          if i < k { assert cart[i].Id() != cart[k].Id(); } else { assert cart[k].Id() != cart[i].Id(); }
        }
      }
    }
  }

  /** Updating an id that has no line, to 1 or more, leaves the cart as it was. */
  lemma UpdateAbsentIsNoOp(cart: seq<CartLine>, id: int, n: int)
    requires n >= 1 && !HasLine(cart, id)
    ensures Updated(cart, id, n) == cart
  {
    var r := Updated(cart, id, n);
    forall i | 0 <= i < |r| ensures r[i] == cart[i] {
      assert cart[i].Id() != id;
    }
  }

  /** Every update keeps one line per id and every quantity at least 1. */
  lemma UpdateKeepsCartValid(cart: seq<CartLine>, id: int, n: int)
    requires ValidCart(cart)
    ensures ValidCart(Updated(cart, id, n))
  {
    if n < 1 {
      RemovedSpec(cart, id);
    } else {
      var r := Updated(cart, id, n);
      assert forall i :: 0 <= i < |r| ==> r[i].Id() == cart[i].Id();
    }
  }

  /*** The cart dialog's requests ***/

  /** What `onUpdate` and `onRemove` do with a request from the cart dialog. */
  function ApplyRequest(cart: seq<CartLine>, request: CartModal.CartRequest): (r: seq<CartLine>)
    ensures |r| <= |cart|
    ensures request.RemoveLine? ==> !HasLine(r, request.id)
    ensures request.UpdateQuantity? && request.quantity >= 1 ==> |r| == |cart|
  {
    match request
    case UpdateQuantity(id, n) => Updated(cart, id, n)
    case RemoveLine(id) => Removed(cart, id)
  }

  /** The − button on a line above 1 lowers that line's quantity by exactly one, other lines unchanged. */
  lemma MinusLowersByOne(cart: seq<CartLine>, k: nat)
    requires ValidCart(cart) && k < |cart| && cart[k].quantity >= 2
    ensures ApplyRequest(cart, CartModal.MinusRequest(cart[k])) == cart[k := cart[k].(quantity := cart[k].quantity - 1)]
  {
    UpdateSetsQuantity(cart, cart[k].quantity - 1, k);
  }

  /** The − button on a line at quantity 1 removes that line, through the floor rule of update. */
  lemma MinusAtOneRemovesLine(cart: seq<CartLine>, k: nat)
    requires k < |cart| && cart[k].quantity == 1
    ensures ApplyRequest(cart, CartModal.MinusRequest(cart[k])) == Removed(cart, cart[k].Id())
    ensures !HasLine(ApplyRequest(cart, CartModal.MinusRequest(cart[k])), cart[k].Id())
  {
    RemovedSpec(cart, cart[k].Id());
  }

  /** The + button adds one to its line even past the product's stock. */
  lemma PlusIgnoresStock(cart: seq<CartLine>, k: nat)
    requires ValidCart(cart) && k < |cart|
    ensures ApplyRequest(cart, CartModal.PlusRequest(cart[k])) == cart[k := cart[k].(quantity := cart[k].quantity + 1)]
  {
    UpdateSetsQuantity(cart, cart[k].quantity + 1, k);
  }

  /** The trash button removes the line. */
  lemma TrashRemovesLine(cart: seq<CartLine>, k: nat)
    requires k < |cart|
    ensures !HasLine(ApplyRequest(cart, CartModal.TrashRequest(cart[k])), cart[k].Id())
    ensures |ApplyRequest(cart, CartModal.TrashRequest(cart[k]))| < |cart|
  {
    RemovedSpec(cart, cart[k].Id());
    RemovedShrinks(cart, cart[k].Id(), k);
  }

  lemma {:induction false} RemovedShrinks(cart: seq<CartLine>, id: int, k: nat)
    requires k < |cart| && cart[k].Id() == id
    ensures |Removed(cart, id)| < |cart|
  {
    if k > 0 {
      RemovedShrinks(cart[1..], id, k - 1);
    }
  }

  /*** Runs of cart operations ***/

  datatype CartOp = Add(product: Product, quantity: int) | Remove(id: int) | Update(id: int, quantity: int)

  function Apply(cart: seq<CartLine>, op: CartOp): seq<CartLine> {
    match op
    case Add(p, q) => Added(cart, p, q)
    case Remove(id) => Removed(cart, id)
    case Update(id, n) => Updated(cart, id, n)
  }

  function ApplyAll(cart: seq<CartLine>, ops: seq<CartOp>): seq<CartLine>
    decreases |ops|
  {
    if ops == [] then cart else ApplyAll(Apply(cart, ops[0]), ops[1..])
  }

  /**
   * Starting from any valid cart (the empty one included), every run of adds of
   * positive quantities, removals and updates leaves at most one line per id and
   * no quantity below 1.
   */
  lemma {:induction false} EveryRunKeepsCartValid(cart: seq<CartLine>, ops: seq<CartOp>)
    requires ValidCart(cart)
    requires forall i :: 0 <= i < |ops| && ops[i].Add? ==> ops[i].quantity >= 1
    ensures ValidCart(ApplyAll(cart, ops))
    decreases |ops|
  {
    if ops != [] {
      match ops[0] {
        case Add(p, q) => AddKeepsCartValid(cart, p, q);
        case Remove(id) => RemovedSpec(cart, id);
        case Update(id, n) => UpdateKeepsCartValid(cart, id, n);
      }
      EveryRunKeepsCartValid(Apply(cart, ops[0]), ops[1..]);
    }
  }

  /*** The cart badge ***/

  /** `cart.reduce((total, item) => total + item.quantity, 0)`. */
  function BadgeCount(cart: seq<CartLine>): (r: int)
    ensures cart == [] ==> r == 0
    ensures (forall i :: 0 <= i < |cart| ==> cart[i].quantity >= 0) ==> r >= 0
  {
    if cart == [] then 0 else cart[0].quantity + BadgeCount(cart[1..])
  }

  /** The badge is rendered only for a non-empty cart. */
  function Badge(cart: seq<CartLine>): (r: Option<int>)
    ensures r.Some? <==> cart != []
    ensures r.Some? ==> r.value == BadgeCount(cart)
  {
    if |cart| > 0 then Some(BadgeCount(cart)) else None
  }

  /** In a valid cart the badge counts at least one item per line. */
  lemma {:induction false} BadgeAtLeastLines(cart: seq<CartLine>)
    requires ValidCart(cart)
    ensures BadgeCount(cart) >= |cart|
    ensures Badge(cart).Some? ==> Badge(cart).value >= 1
  {
    if cart != [] {
      assert ValidCart(cart[1..]) by {
        forall i, j | 0 <= i < j < |cart[1..]| ensures cart[1..][i].Id() != cart[1..][j].Id() {
          assert cart[i + 1].Id() != cart[j + 1].Id();
        }
      }
      BadgeAtLeastLines(cart[1..]);
    }
  }

  /** An add raises the badge by exactly the quantity added. */
  lemma {:induction false} BadgeAfterAdd(cart: seq<CartLine>, product: Product, quantity: int)
    requires UniqueIds(cart)
    ensures BadgeCount(Added(cart, product, quantity)) == BadgeCount(cart) + quantity
  {
    if HasLine(cart, product.id) {
      BadgeAfterMerge(cart, product.id, quantity);
    } else {
      BadgeAppend(cart, [CartLine(product, quantity)]);
    }
  }

  lemma {:induction false} BadgeAppend(a: seq<CartLine>, b: seq<CartLine>)
    ensures BadgeCount(a + b) == BadgeCount(a) + BadgeCount(b)
  {
    if a == [] {
      assert a + b == b;
    } else {
      assert (a + b)[0] == a[0];
      assert (a + b)[1..] == a[1..] + b;
      BadgeAppend(a[1..], b);
    }
  }

  lemma {:induction false} BadgeAfterMerge(cart: seq<CartLine>, id: int, extra: int)
    requires UniqueIds(cart) && HasLine(cart, id)
    ensures BadgeCount(MergeQuantity(cart, id, extra)) == BadgeCount(cart) + extra
  {
    var r := MergeQuantity(cart, id, extra);
    var tail := cart[1..];
    assert r[1..] == MergeQuantity(tail, id, extra);
    if cart[0].Id() == id {
      assert !HasLine(tail, id) by {
        forall m | 0 <= m < |tail| ensures tail[m].Id() != id {
          assert cart[0].Id() != cart[m + 1].Id();
        }
      }
      assert MergeQuantity(tail, id, extra) == tail;
    } else {
      assert UniqueIds(tail) by {
        forall i, j | 0 <= i < j < |tail| ensures tail[i].Id() != tail[j].Id() {
          assert cart[i + 1].Id() != cart[j + 1].Id();
        }
      }
      var k :| 0 <= k < |cart| && cart[k].Id() == id;
      assert tail[k - 1].Id() == id;
      BadgeAfterMerge(tail, id, extra);
    }
  }

  /*** The cart held in component state ***/

  /** The `cart` state: a list of lines that each handler replaces as a whole. */
  class CartStore {
    var lines: seq<CartLine>

    constructor ()
      ensures lines == [] && ValidCart(lines)
    {
      lines := [];
    }

    method AddToCart(product: Product, quantity: int)
      modifies this
      ensures lines == Added(old(lines), product, quantity)
      ensures ValidCart(old(lines)) && quantity >= 1 ==> ValidCart(lines)
    {
      if ValidCart(lines) && quantity >= 1 {
        AddKeepsCartValid(lines, product, quantity);
      }
      lines := Added(lines, product, quantity);
    }

    method RemoveFromCart(id: int)
      modifies this
      ensures lines == Removed(old(lines), id)
      ensures ValidCart(old(lines)) ==> ValidCart(lines)
    {
      RemovedSpec(lines, id);
      lines := Removed(lines, id);
    }

    method UpdateCartItem(id: int, newQuantity: int)
      modifies this
      ensures lines == Updated(old(lines), id, newQuantity)
      ensures ValidCart(old(lines)) ==> ValidCart(lines)
    {
      if newQuantity < 1 {
        RemoveFromCart(id);
        return;
      }
      if ValidCart(lines) {
        UpdateKeepsCartValid(lines, id, newQuantity);
      }
      lines := SetQuantity(lines, id, newQuantity);
    }

    /** A request from the cart dialog's buttons, routed to `onUpdate` or `onRemove`. */
    method Handle(request: CartModal.CartRequest)
      modifies this
      ensures lines == ApplyRequest(old(lines), request)
      ensures ValidCart(old(lines)) ==> ValidCart(lines)
    {
      match request {
        case UpdateQuantity(id, n) => UpdateCartItem(id, n);
        case RemoveLine(id) => RemoveFromCart(id);
      }
    }
  }

  /**
   * A product tile's add button wired to this page's `addToCart`. That callback
   * returns nothing, so the tile always sees a falsy result: the cart takes the
   * line, but the tile never shows "Added!", never resets its quantity to 1 and
   * never marks itself out of stock after selling the last items.
   */
  method AddFromCard(card: ProductCard.Card, store: CartStore, lookup: ProductCard.StockFetch)
    returns (outcome: ProductCard.AddOutcome)
    requires card.Valid()
    modifies card, store
    ensures card.Valid()
    ensures card.quantity == old(card.quantity) && card.isAdded == old(card.isAdded)
    ensures outcome.CallbackCalled? ==> card.isOutOfStock == old(card.isOutOfStock)
    ensures outcome.CallbackCalled? ==>
              store.lines == Added(old(store.lines), card.product, old(card.quantity))
    ensures outcome.Notified? ==> store.lines == old(store.lines)
    ensures ValidCart(old(store.lines)) ==> ValidCart(store.lines)
  {
    outcome := card.HandleAddToCart(lookup, false);
    if outcome.CallbackCalled? {
      store.AddToCart(outcome.product, outcome.quantity);
    }
  }

  /**
   * The wiring as evidently intended, with `addToCart` reporting success: after
   * an accepted add the cart holds the line, the tile shows "Added!" with its
   * stepper back at 1, and it marks itself out of stock once the fresh stock is
   * used up.
   */
  method AddFromCardConfirmed(card: ProductCard.Card, store: CartStore, lookup: ProductCard.StockFetch)
    returns (outcome: ProductCard.AddOutcome)
    requires card.Valid()
    modifies card, store
    ensures card.Valid()
    ensures outcome.CallbackCalled? ==>
              && store.lines == Added(old(store.lines), card.product, old(card.quantity))
              && card.isAdded && card.quantity == 1 && lookup.Stock?
              && card.isOutOfStock == (old(card.isOutOfStock) || lookup.n == old(card.quantity))
    ensures outcome.Notified? ==> store.lines == old(store.lines)
    ensures ValidCart(old(store.lines)) ==> ValidCart(store.lines)
  {
    outcome := card.HandleAddToCart(lookup, true);
    if outcome.CallbackCalled? {
      store.AddToCart(outcome.product, outcome.quantity);
    }
  }
}
