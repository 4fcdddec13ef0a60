/** The Shop page's cart as the server returns it, the values the page
    derives from it (membership, per-product quantity, item count, total),
    and the product search with its suggestion list. */
module ShopCart {
  import opened Wrappers
  import opened Text
  import opened Sequences

  /** One cart line. Prices are whole amounts (see README, Left out). */
  datatype CartItem = CartItem(product: string, title: string, price: int, quantity: int)

  /** `{ _id, items }`; the page's initial `{ items: [] }` has no id. */
  datatype Cart = Cart(id: Option<string>, items: seq<CartItem>)

  const EmptyCart: Cart := Cart(None, [])

  datatype Product = Product(id: string, title: string, price: int)

  // ---------------------------------------------------------------------
  // Membership and per-product quantity

  /** `cart.items.some(item => item.product.toString() === productId)` */
  predicate IsInCart(items: seq<CartItem>, productId: string)
  {
    |items| > 0 && (items[0].product == productId || IsInCart(items[1..], productId))
  }

  /** `find` the first line of the product; its quantity, or 0 without one. */
  function GetCartQuantity(items: seq<CartItem>, productId: string): int
  {
    if items == [] then 0
    else if items[0].product == productId then items[0].quantity
    else GetCartQuantity(items[1..], productId)
  }

  /** `i` is the first line that holds the product. */
  predicate FirstLineOf(items: seq<CartItem>, productId: string, i: int)
  {
    0 <= i < |items| && items[i].product == productId
    && forall j :: 0 <= j < i ==> items[j].product != productId
  }

  lemma {:induction false} IsInCartIff(items: seq<CartItem>, productId: string)
    ensures IsInCart(items, productId) <==> exists i :: 0 <= i < |items| && items[i].product == productId
  {
    if items != [] {
      IsInCartIff(items[1..], productId);
      if IsInCart(items[1..], productId) {
        var i :| 0 <= i < |items[1..]| && items[1..][i].product == productId;
        assert items[i + 1].product == productId;
      }
      assert forall i :: 1 <= i < |items| ==> items[i] == items[1..][i - 1];
    }
  }

  /** getCartQuantity is the quantity of the first line holding the product,
      and 0 exactly when isInCart is false. */
  lemma {:induction false} CartQuantityOfFirstLine(items: seq<CartItem>, productId: string)
    ensures IsInCart(items, productId) ==>
      exists i :: FirstLineOf(items, productId, i) && GetCartQuantity(items, productId) == items[i].quantity
    ensures !IsInCart(items, productId) ==> GetCartQuantity(items, productId) == 0
  {
    if items != [] && items[0].product != productId {
      CartQuantityOfFirstLine(items[1..], productId);
      if IsInCart(items[1..], productId) {
        var i :| FirstLineOf(items[1..], productId, i)
          && GetCartQuantity(items[1..], productId) == items[1..][i].quantity;
        assert forall j :: 1 <= j <= i ==> items[j] == items[1..][j - 1];
        assert FirstLineOf(items, productId, i + 1);
      }
    } else if items != [] {
      assert FirstLineOf(items, productId, 0);
    }
  }

  // ---------------------------------------------------------------------
  // Item count and total

  /** `items.reduce((total, item) => total + f(item), acc)`: a left fold. */
  function ReduceFrom(acc: int, items: seq<CartItem>, f: CartItem -> int): int
    decreases |items|
  {
    if items == [] then acc else ReduceFrom(acc + f(items[0]), items[1..], f)
  }

  /** Σ f(item) over the items, taken from the last item backwards. */
  function SumOf(items: seq<CartItem>, f: CartItem -> int): int
  {
    if items == [] then 0 else SumOf(items[..|items| - 1], f) + f(items[|items| - 1])
  }

  function Quantity(item: CartItem): int
  {
    item.quantity
  }

  function LineTotal(item: CartItem): int
  {
    item.price * item.quantity
  }

  /** `cartItemCount` */
  function CartItemCount(items: seq<CartItem>): int
  {
    ReduceFrom(0, items, Quantity)
  }

  /** `totalAmount`, before `toFixed(2)` */
  function TotalAmount(items: seq<CartItem>): int
  {
    ReduceFrom(0, items, LineTotal)
  }

  lemma {:induction false} SumOfCons(x: CartItem, rest: seq<CartItem>, f: CartItem -> int)
    ensures SumOf([x] + rest, f) == f(x) + SumOf(rest, f)
    decreases |rest|
  {
    if rest != [] {
      var all := [x] + rest;
      assert all[..|all| - 1] == [x] + rest[..|rest| - 1];
      SumOfCons(x, rest[..|rest| - 1], f);
    } else {
      assert [x] + rest == [x];
      assert [x][..0] == [];
    }
  }

  /** The page's left fold equals the sum it is meant to compute. */
  lemma {:induction false} ReduceIsSum(acc: int, items: seq<CartItem>, f: CartItem -> int)
    ensures ReduceFrom(acc, items, f) == acc + SumOf(items, f)
    decreases |items|
  {
    if items != [] {
      ReduceIsSum(acc + f(items[0]), items[1..], f);
      assert items == [items[0]] + items[1..];
      SumOfCons(items[0], items[1..], f);
    }
  }

  /** The item count is the sum of the quantities and the total is
      Σ price × quantity. */
  lemma CartTotalsAreSums(items: seq<CartItem>)
    ensures CartItemCount(items) == SumOf(items, Quantity)
    ensures TotalAmount(items) == SumOf(items, LineTotal)
  {
    ReduceIsSum(0, items, Quantity);
    ReduceIsSum(0, items, LineTotal);
  }

  /** Two lines, 1000 × 2 and 500 × 1, total 2500 over 3 items. */
  lemma TotalExample()
    ensures var items := [CartItem("p1", "A", 1000, 2), CartItem("p2", "B", 500, 1)];
      TotalAmount(items) == 2500 && CartItemCount(items) == 3
  {
  }

  // ---------------------------------------------------------------------
  // Search and suggestions

  /** `products.map(product => product.title)` */
  function Titles(products: seq<Product>): seq<string>
  {
    Map(products, (p: Product) => p.title)
  }

  /** `product => product.title.toLowerCase().includes(searchTerm.toLowerCase())` */
  function TitleMatcher(term: string): Product -> bool
  {
    (p: Product) => MatchesTerm(p.title, term)
  }

  /** filteredProducts: every product for a blank term, else the matching ones. */
  function SearchProducts(products: seq<Product>, term: string): seq<Product>
  {
    if IsBlank(term) then products else Filter(products, TitleMatcher(term))
  }

  /** suggestions: none for a blank term, else the first five matching titles. */
  function ProductSuggestions(products: seq<Product>, term: string): seq<string>
  {
    if IsBlank(term) then [] else Take(Filter(Titles(products), TextMatcher(term)), 5)
  }

  /** A blank term shows every product and no suggestion; any other term
      keeps, in order, exactly the products whose title contains it
      ignoring case. */
  lemma SearchProductsSpec(products: seq<Product>, term: string)
    ensures IsBlank(term) ==> SearchProducts(products, term) == products && ProductSuggestions(products, term) == []
    ensures IsSubsequence(SearchProducts(products, term), products)
    ensures !IsBlank(term) ==>
      (forall i :: 0 <= i < |SearchProducts(products, term)| ==>
         MatchesTerm(SearchProducts(products, term)[i].title, term))
      && (forall i :: 0 <= i < |products| && MatchesTerm(products[i].title, term) ==>
         products[i] in SearchProducts(products, term))
    ensures !IsBlank(term) ==> forall x ::
      multiset(SearchProducts(products, term))[x] == if MatchesTerm(x.title, term) then multiset(products)[x] else 0
  {
    if IsBlank(term) {
      FilterAll(products, (_: Product) => true);
      FilterIsSubsequence(products, (_: Product) => true);
    } else {
      FilterIsSubsequence(products, TitleMatcher(term));
      FilterCount(products, TitleMatcher(term));
    }
  }

  lemma TitlesCons(x: Product, rest: seq<Product>)
    ensures Titles([x] + rest) == [x.title] + Titles(rest)
  {
  }

  /** Filtering the titles with `q` is filtering the products with `p` and
      taking their titles, when `p` looks only at the title through `q`. */
  lemma {:induction false} FilterTitlesBy(products: seq<Product>, p: Product -> bool, q: string -> bool)
    requires forall x :: p(x) == q(x.title)
    ensures Filter(Titles(products), q) == Titles(Filter(products, p))
    decreases |products|
  {
    if products != [] {
      var x, tail := products[0], products[1..];
      assert products == [x] + tail;
      TitlesCons(x, tail);
      FilterTitlesBy(tail, p, q);
      if p(x) {
        TitlesCons(x, Filter(tail, p));
      }
    }
  }

  /** The suggestions' titles come from the same filter as the products. */
  lemma FilterTitles(products: seq<Product>, term: string)
    ensures Filter(Titles(products), TextMatcher(term)) == Titles(Filter(products, TitleMatcher(term)))
  {
    FilterTitlesBy(products, TitleMatcher(term), TextMatcher(term));
  }

  /** The suggestions are at most five titles, and they are the titles of the
      first filtered products, in the same order. */
  lemma SuggestionsAreFirstResults(products: seq<Product>, term: string)
    requires !IsBlank(term)
    ensures ProductSuggestions(products, term) == Take(Titles(SearchProducts(products, term)), 5)
    ensures |ProductSuggestions(products, term)| <= 5
  {
    FilterTitles(products, term);
  }
}
