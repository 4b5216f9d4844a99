/** The PLP and PDP add-to-cart scenario: pick a product category at
    random, add the first product from its listing page (PLP), pick a second
    category, open one of its first five products (PDP), add it to the cart,
    and look at the cart page and its badge. Every browser interaction goes
    through the `Page` oracle of `Locator`; `Math.random()` draws are index
    parameters bounded as `Math.floor(Math.random() * n)` bounds them. */
module AddToCart {
  import opened Wrappers
  import opened Strings
  import opened Locator

  const ProductCategories: seq<string> := [
    "https://www.lg.com/us/tvs",
    "https://www.lg.com/us/monitors",
    "https://www.lg.com/us/laptops",
    "https://www.lg.com/us/refrigerators",
    "https://www.lg.com/us/dishwashers",
    "https://www.lg.com/us/projectors"
  ]

  const DismissCandidates: seq<string> := [
    "button[aria-label=\"Close\"]",
    "button[aria-label=\"Accept\"]",
    "button:has-text(\"Accept\")",
    "button:has-text(\"Agree\")",
    "button:has-text(\"Close\")",
    "button:has-text(\"No, thanks\")",
    "#onetrust-accept-btn-handler"
  ]

  const AddToCartSelectors: seq<string> := [
    "button:has-text(\"Add to Cart\")",
    "button:has-text(\"Add to bag\")",
    "button:has-text(\"Add to cart\")",
    "button[data-testid*=\"add-to-cart\"]",
    "button[data-test*=\"add-to-cart\"]",
    "button[class*=\"addToCart\"]",
    "button[class*=\"add-to-cart\"]",
    "a:has-text(\"Add to Cart\")",
    "[aria-label*=\"Add to Cart\"]",
    "button:has-text(\"Add to Basket\")"
  ]

  /** Tried on the PDP only when no add-to-cart button could be clicked. */
  const AlternateButtons: seq<string> := [
    "button:has-text(\"Buy now\")",
    "button:has-text(\"Check Availability\")"
  ]

  const CartBadgeSelectors: seq<string> := [
    ".cart-count",
    ".cart-badge",
    "[data-testid=\"cart-count\"]",
    "a[href*=\"/cart\"] .count",
    ".miniCartCount"
  ]

  /** Prefixed to a product link that is not already absolute. */
  const SiteOrigin: string := "https://www.lg.com"

  /** The PDP is chosen among at most this many leading product cards. */
  const MaxPdpCandidates: nat := 5

  function Min(a: nat, b: nat): nat {
    if a <= b then a else b
  }

  // ---------------------------------------------------------------- categories

  /** No category URL is listed twice. */
  predicate Distinct(s: seq<string>) {
    forall i, j :: 0 <= i < j < |s| ==> s[i] != s[j]
  }

  /** `getRandomCategory()`, with the draw `Math.floor(Math.random() * 6)`. */
  function RandomCategory(draw: nat): (c: string)
    requires draw < |ProductCategories|
    ensures c in ProductCategories
  {
    ProductCategories[draw]
  }

  /** `s.filter(e => e !== x)`. */
  function Without(s: seq<string>, x: string): (r: seq<string>)
    ensures forall e :: e in r <==> e in s && e != x
    ensures |r| <= |s|
  {
    if s == [] then []
    else (if s[0] != x then [s[0]] else []) + Without(s[1..], x)
  }

  /** In a list without repetitions the filter drops exactly one entry when
      `x` is listed, and none otherwise. */
  lemma {:induction false} WithoutDistinctLength(s: seq<string>, x: string)
    requires Distinct(s)
    ensures |Without(s, x)| == if x in s then |s| - 1 else |s|
  {
    if s != [] {
      assert Distinct(s[1..]) by {
        forall i, j | 0 <= i < j < |s[1..]| ensures s[1..][i] != s[1..][j] {
          assert s[1..][i] == s[i + 1] && s[1..][j] == s[j + 1];
        }
      }
      WithoutDistinctLength(s[1..], x);
      if s[0] == x {
        assert x !in s[1..] by {
          forall k | 0 <= k < |s[1..]| ensures s[1..][k] != x {
            assert s[1..][k] == s[k + 1];
          }
        }
      } else {
        assert x in s <==> x in s[1..];
      }
    }
  }

  lemma CategoriesDistinct()
    ensures Distinct(ProductCategories)
  {
    // the six URLs differ in length
  }

  /** The categories other than `current` (`otherCategories`). */
  function OtherCategories(current: string): seq<string> {
    Without(ProductCategories, current)
  }

  /** `otherCategories` is never empty: it has five entries when `current`
      is a listed category and six otherwise. */
  lemma OtherCategoriesCount(current: string)
    ensures |OtherCategories(current)| == if current in ProductCategories then 5 else 6
  {
    CategoriesDistinct();
    WithoutDistinctLength(ProductCategories, current);
  }

  /** `getDifferentCategory(current)`, with the draw
      `Math.floor(Math.random() * otherCategories.length)`. */
  function DifferentCategory(current: string, draw: nat): (c: string)
    requires draw < |OtherCategories(current)|
    ensures c in ProductCategories && c != current
  {
    var others := OtherCategories(current);
    assert others[draw] in others;
    others[draw]
  }

  /** `Math.random() > 0.5 ? getDifferentCategory(first) : first`. */
  function SecondCategory(first: string, pickDifferent: bool, draw: nat): (c: string)
    requires pickDifferent ==> draw < |OtherCategories(first)|
    ensures pickDifferent <==> c != first
    ensures pickDifferent ==> c in ProductCategories
  {
    if pickDifferent then DifferentCategory(first, draw) else first
  }

  // ------------------------------------------------------------- cart network

  /** The response predicate inside `waitForCartApi`: an add-to-cart URL
      fragment is present and no chat-widget fragment is. */
  function IsCartApi(url: string): (b: bool)
    ensures b <==> (Occurs(url, "/cart") || Occurs(url, "/add") || Occurs(url, "/basket"))
                   && !Occurs(url, "chat") && !Occurs(url, "sprinklr")
  {
    IncludesIffOccurs(url, "/cart");
    IncludesIffOccurs(url, "/add");
    IncludesIffOccurs(url, "/basket");
    IncludesIffOccurs(url, "chat");
    IncludesIffOccurs(url, "sprinklr");
    (Includes(url, "/cart") || Includes(url, "/add") || Includes(url, "/basket"))
      && !Includes(url, "chat") && !Includes(url, "sprinklr")
  }

  /** An observed network response: its URL, its status, and whether
      `response.json()` succeeds. */
  datatype CartResponse = CartResponse(url: string, status: int, jsonBody: bool)

  /** Position of the response `page.waitForResponse` resolves with: the first
      of `arrivals` whose URL passes `IsCartApi`, if any. */
  function FirstCartResponse(arrivals: seq<CartResponse>): (r: Option<nat>)
    ensures r.Some? ==> r.value < |arrivals| && IsCartApi(arrivals[r.value].url)
    ensures r.Some? ==> forall j :: 0 <= j < r.value ==> !IsCartApi(arrivals[j].url)
    ensures r.None? <==> forall j :: 0 <= j < |arrivals| ==> !IsCartApi(arrivals[j].url)
  {
    if arrivals == [] then None
    else if IsCartApi(arrivals[0].url) then Some(0)
    else
      match FirstCartResponse(arrivals[1..])
      case None => None
      case Some(k) => Some(k + 1)
  }

  /** The outcome of `waitForCartApi()` raced against the 5000 ms timeout;
      `arrivals` are the responses seen before the race resolved. */
  function AwaitCartApi(arrivals: seq<CartResponse>): (r: Option<CartResponse>)
    ensures r.Some? ==> exists k :: 0 <= k < |arrivals| && arrivals[k] == r.value
                                    && IsCartApi(r.value.url)
                                    && forall j :: 0 <= j < k ==> !IsCartApi(arrivals[j].url)
    ensures r.None? <==> forall a :: a in arrivals ==> !IsCartApi(a.url)
  {
    match FirstCartResponse(arrivals)
    case None => None
    case Some(k) => Some(arrivals[k])
  }

  // ---------------------------------------------------------- PDP navigation

  datatype CartError = NoProductCards | NoProductCardsInSecondCategory

  /** The PDP card: `Math.floor(Math.random() * Math.min(cardCount2, 5))`,
      after the guard that a second listing with no cards is fatal. */
  function PickCard(cardCount: nat, draw: nat): (r: Result<nat, CartError>)
    requires cardCount > 0 ==> draw < Min(cardCount, MaxPdpCandidates)
    ensures r.Err? <==> cardCount == 0
    ensures r.Err? ==> r.error == NoProductCardsInSecondCategory
    ensures r.Ok? ==> r.value == draw && r.value < cardCount && r.value < MaxPdpCandidates
  {
    if cardCount == 0 then Err(NoProductCardsInSecondCategory) else Ok(draw)
  }

  /** A product link made absolute. */
  function FullUrl(href: string): (u: string)
    ensures StartsWith(u, "http")
    ensures StartsWith(href, "http") ==> u == href
    ensures !StartsWith(href, "http") ==> u == SiteOrigin + href
    ensures |href| <= |u| && u[|u| - |href|..] == href
  {
    if StartsWith(href, "http") then href
    else
      assert (SiteOrigin + href)[..4] == "http";
      SiteOrigin + href
  }

  /** Making a link absolute twice changes nothing. */
  lemma FullUrlIdempotent(href: string)
    ensures FullUrl(FullUrl(href)) == FullUrl(href)
  {
  }

  datatype PdpNavigation = OpenUrl(url: string) | ClickCard

  /** `if (productHref) goto(fullUrl) else secondCard.click()`: a missing or
      empty `href` (both falsy) falls back to clicking the card. */
  function PdpNavigationFor(href: Option<string>): (n: PdpNavigation)
    ensures n.ClickCard? <==> href.None? || href.value == ""
    ensures n.OpenUrl? ==> StartsWith(n.url, "http") && n.url == FullUrl(href.value)
  {
    match href
    case None => ClickCard
    case Some(h) => if h == "" then ClickCard else OpenUrl(FullUrl(h))
  }

  // ------------------------------------------------------------- the scenario

  /** What the browser would report at each step of one run. Every page
      value is one snapshot of the page at that step. */
  datatype CartObservations = CartObservations(
    firstDraw: nat,                     // index of the first category
    firstPage: Page,                    // first PLP
    firstCardCount: nat,                // `.product-card-wrapper` count there
    firstArrivals: seq<CartResponse>,   // responses before the PLP race resolves
    pickDifferent: bool,                // `Math.random() > 0.5`
    secondDraw: nat,                    // index into the other categories
    secondPage: Page,                   // second PLP
    secondCardCount: nat,
    cardDraw: nat,                      // index of the PDP card
    productHref: Option<string>,        // `href` of the card's first link
    pdpPage: Page,
    pdpArrivals: seq<CartResponse>,     // responses before the PDP race resolves
    cartPage: Page)

  /** What one successful run did. */
  datatype CartReport = CartReport(
    firstCategory: string,
    secondCategory: string,
    dismissed: seq<seq<string>>,         // clicks of the three modal-dismissal passes
    plpAdd: LocateResult,
    plpResponse: Option<CartResponse>,
    cardIndex: nat,
    pdpNavigation: PdpNavigation,
    pdpAdd: LocateResult,
    pdpAlternate: Option<LocateResult>,  // None: the alternates were not tried
    pdpResponse: Option<CartResponse>,
    badge: LocateResult)

  /** The PLP and PDP add-to-cart test body. It fails only when a listing
      page has no product cards; a missing button, a missing cart response
      or a missing badge are logged and the run goes on. */
  method RunAddToCart(obs: CartObservations) returns (r: Result<CartReport, CartError>)
    requires obs.firstDraw < |ProductCategories|
    requires obs.pickDifferent ==> obs.secondDraw < |OtherCategories(ProductCategories[obs.firstDraw])|
    requires obs.secondCardCount > 0 ==> obs.cardDraw < Min(obs.secondCardCount, MaxPdpCandidates)
    ensures r == Err(NoProductCards) <==> obs.firstCardCount == 0
    ensures r == Err(NoProductCardsInSecondCategory) <==> obs.firstCardCount > 0 && obs.secondCardCount == 0
    ensures r.Ok? ==> r.value.firstCategory == ProductCategories[obs.firstDraw]
    ensures r.Ok? ==> r.value.secondCategory in ProductCategories
    ensures r.Ok? ==> (obs.pickDifferent <==> r.value.secondCategory != r.value.firstCategory)
    ensures r.Ok? ==> r.value.dismissed == [Attempts(DismissCandidates, obs.firstPage),
                                            Attempts(DismissCandidates, obs.secondPage),
                                            Attempts(DismissCandidates, obs.pdpPage)]
    ensures r.Ok? ==> r.value.plpAdd == Locate(AddToCartSelectors, obs.firstPage, ShownAndActed)
    ensures r.Ok? ==> r.value.plpResponse == AwaitCartApi(obs.firstArrivals)
    ensures r.Ok? ==> r.value.cardIndex < obs.secondCardCount && r.value.cardIndex < MaxPdpCandidates
    ensures r.Ok? ==> r.value.pdpNavigation == PdpNavigationFor(obs.productHref)
    ensures r.Ok? ==> r.value.pdpAdd == Locate(AddToCartSelectors, obs.pdpPage, ShownAndActed)
    ensures r.Ok? ==> (r.value.pdpAlternate.Some? <==> r.value.pdpAdd.NotFound?)
    ensures r.Ok? && r.value.pdpAlternate.Some? ==>
              r.value.pdpAlternate.value == Locate(AlternateButtons, obs.pdpPage, ShownAndActed)
    ensures r.Ok? ==> r.value.pdpResponse == AwaitCartApi(obs.pdpArrivals)
    ensures r.Ok? ==> r.value.badge == Locate(CartBadgeSelectors, obs.cartPage, AttachedAndActed)
  {
    // 1. first PLP
    var first := RandomCategory(obs.firstDraw);
    var dismissed1 := DismissModals(DismissCandidates, obs.firstPage);
    if obs.firstCardCount == 0 {
      return Err(NoProductCards);
    }

    // 2. add to cart on the PLP; the listener was registered before the
    //    click, so `firstArrivals` may hold the click's own response
    var plpAdd := Search(AddToCartSelectors, obs.firstPage, ShownAndActed);
    var plpResponse := AwaitCartApi(obs.firstArrivals);

    // 3. second PLP, same or different category
    var second := SecondCategory(first, obs.pickDifferent, obs.secondDraw);
    var dismissed2 := DismissModals(DismissCandidates, obs.secondPage);
    var card := PickCard(obs.secondCardCount, obs.cardDraw);
    if card.Err? {
      return Err(card.error);
    }

    // 4. open the PDP
    var navigation := PdpNavigationFor(obs.productHref);
    var dismissed3 := DismissModals(DismissCandidates, obs.pdpPage);

    // 5. add to cart on the PDP, falling back to the alternate buttons
    var pdpAdd := Search(AddToCartSelectors, obs.pdpPage, ShownAndActed);
    var pdpAlternate := None;
    if pdpAdd.NotFound? {
      var alternate := Search(AlternateButtons, obs.pdpPage, ShownAndActed);
      pdpAlternate := Some(alternate);
    }
    var pdpResponse := AwaitCartApi(obs.pdpArrivals);

    // 6. cart page: the first badge whose text can be read
    var badge := Search(CartBadgeSelectors, obs.cartPage, AttachedAndActed);

    r := Ok(CartReport(first, second, [dismissed1, dismissed2, dismissed3],
                       plpAdd, plpResponse, card.value, navigation,
                       pdpAdd, pdpAlternate, pdpResponse, badge));
  }

  /** The situation of a mocked page with several add-to-cart candidates of
      which only the third is visible: the search returns the third. */
  lemma OnlyThirdButtonShown(page: Page)
    requires forall k :: 0 <= k < |AddToCartSelectors| ==>
               page(AddToCartSelectors[k]) == Matches(1, k == 2, true)
    ensures Locate(AddToCartSelectors, page, ShownAndActed) == Found(2, AddToCartSelectors[2])
  {
    assert !Accepts(ShownAndActed, page(AddToCartSelectors[0]));
    assert !Accepts(ShownAndActed, page(AddToCartSelectors[1]));
    assert Accepts(ShownAndActed, page(AddToCartSelectors[2]));
  }
}
