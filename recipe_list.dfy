/**
 * The recipe listing component: the loaded recipes laid out in rows of
 * three, the page selector `1..pages` with its highlight, the click on a
 * page number, the listing response, and the favourite button.
 */
module RecipeList {
  import opened JsValue
  import opened Effects

  const ChunkSize := 3
  const RecipesPath := "/api/v1/recipes"
  const FavouriteMessage := "Added to favourite list"

  function Min(a: int, b: int): int {
    if a <= b then a else b
  }

  // ---------------------------------------------------------------------
  // Rows of recipes

  function Concat<T>(rows: seq<seq<T>>): seq<T> {
    if rows == [] then [] else rows[0] + Concat(rows[1..])
  }

  lemma {:induction false} ConcatAppend<T>(rows: seq<seq<T>>, row: seq<T>)
    ensures Concat(rows + [row]) == Concat(rows) + row
  {
    if rows == [] {
      assert [] + [row] == [row];
    } else {
      assert (rows + [row])[1..] == rows[1..] + [row];
      ConcatAppend(rows[1..], row);
    }
  }

  /**
   * `rows` lays out `items` as the listing does: read in order the rows give
   * back the items, every row holds one to three items, and every row but
   * the last holds exactly three.
   */
  ghost predicate IsRowLayout<T>(rows: seq<seq<T>>, items: seq<T>) {
    && Concat(rows) == items
    && (forall k :: 0 <= k < |rows| ==> 0 < |rows[k]| <= ChunkSize)
    && (forall k :: 0 <= k < |rows| - 1 ==> |rows[k]| == ChunkSize)
  }

  /** The first row of a layout is the first three items (or all of them if fewer), and the rest lay out the remainder. */
  lemma RowLayoutHead<T>(rows: seq<seq<T>>, items: seq<T>)
    requires IsRowLayout(rows, items) && items != []
    ensures rows != []
    ensures rows[0] == items[..Min(ChunkSize, |items|)]
    ensures IsRowLayout(rows[1..], items[|rows[0]|..])
  {
    assert rows != [];
    assert items == rows[0] + Concat(rows[1..]);
    if |rows| > 1 {
      assert |Concat(rows[1..])| >= |rows[1]| > 0 by {
        assert Concat(rows[1..]) == rows[1] + Concat(rows[2..]);
      }
    }
    assert items[..|rows[0]|] == rows[0];
  }

  /** A layout has ceil(n/3) rows. */
  lemma {:induction false} RowLayoutCount<T>(rows: seq<seq<T>>, items: seq<T>)
    requires IsRowLayout(rows, items)
    ensures |rows| == (|items| + ChunkSize - 1) / ChunkSize
  {
    if items != [] {
      RowLayoutHead(rows, items);
      RowLayoutCount(rows[1..], items[|rows[0]|..]);
    }
  }

  /** The layout of a list is unique: the rule leaves no choice. */
  lemma {:induction false} RowLayoutUnique<T>(rows: seq<seq<T>>, others: seq<seq<T>>, items: seq<T>)
    requires IsRowLayout(rows, items) && IsRowLayout(others, items)
    ensures rows == others
  {
    if items == [] {
      RowLayoutCount(rows, items);
      RowLayoutCount(others, items);
    } else {
      RowLayoutHead(rows, items);
      RowLayoutHead(others, items);
      RowLayoutUnique(rows[1..], others[1..], items[|rows[0]|..]);
      assert rows == [rows[0]] + rows[1..];
      assert others == [others[0]] + others[1..];
    }
  }

  /** Seven recipes make rows of 3, 3 and 1; no recipes make no rows. */
  lemma RowLayoutExamples<T>(rows: seq<seq<T>>, items: seq<T>)
    requires IsRowLayout(rows, items)
    ensures |items| == 7 ==> |rows| == 3 && |rows[0]| == 3 && |rows[1]| == 3 && |rows[2]| == 1
    ensures |items| == 0 ==> rows == []
  {
    RowLayoutCount(rows, items);
    if |items| == 7 {
      RowLayoutHead(rows, items);
      RowLayoutHead(rows[1..], items[3..]);
      RowLayoutHead(rows[2..], items[6..]);
      assert rows[1..][0] == rows[1] && rows[2..][0] == rows[2];
    }
  }

  // ---------------------------------------------------------------------
  // Page selector

  /** One entry of the page selector: its number, its `data-page` attribute, and whether it is drawn highlighted. */
  datatype PageLink = PageLink(number: int, dataPage: string, highlighted: bool)

  /** Entry `i`: highlighted when `page === i`, so only a number equal to `i` matches. */
  function Link(i: int, page: Value): PageLink {
    PageLink(i, IntToText(i), page == Num(i))
  }

  /** The entries the selector loop produces for `i = 1; i <= pages`. */
  function PageLinks(pages: int, page: Value): seq<PageLink> {
    seq(if pages < 1 then 0 else pages, k => Link(k + 1, page))
  }

  /** The selector lists exactly `1..pages` in ascending order, each with its numeral as `data-page`, and nothing when `pages < 1`. */
  lemma PageLinksEnumerate(pages: int, page: Value)
    ensures var links := PageLinks(pages, page);
      && |links| == (if pages < 1 then 0 else pages)
      && (forall k :: 0 <= k < |links| ==> links[k].number == k + 1 && links[k].dataPage == IntToText(k + 1))
      && (forall j, k :: 0 <= j < k < |links| ==> links[j].number < links[k].number)
  {
  }

  /** An entry is highlighted exactly when `page` is that number, so at most one entry is. */
  lemma AtMostOneHighlighted(pages: int, page: Value)
    ensures var links := PageLinks(pages, page);
      && (forall k :: 0 <= k < |links| ==> (links[k].highlighted <==> page == Num(k + 1)))
      && (forall j, k :: 0 <= j < |links| && 0 <= k < |links| && links[j].highlighted && links[k].highlighted ==> j == k)
  {
  }

  /**
   * After a click `page` holds the `data-page` string, which never equals a
   * number: no entry is highlighted, including the one clicked. Initially
   * `page` is the number 1 and the first entry is highlighted.
   */
  lemma ClickedPageIsNotHighlighted(pages: int, clicked: PageLink)
    ensures forall k :: 0 <= k < |PageLinks(pages, Str(clicked.dataPage))| ==> !PageLinks(pages, Str(clicked.dataPage))[k].highlighted
    ensures pages >= 1 ==> PageLinks(pages, Num(1))[0].highlighted
  {
  }

  // ---------------------------------------------------------------------
  // Listing state

  /** A settled listing request: the response's `data.data` and `data.pages`, or a request that failed. */
  datatype FetchResult = Loaded(recipes: seq<Value>, pages: int) | Failed

  /** The component state `{ recipes, pages, page }`. */
  datatype Listing = Listing(recipes: seq<Value>, pages: int, page: Value)

  const InitialListing := Listing([], 1, Num(1))

  /** The `then` callback of `getRecipes`; there is no `catch`, so a failure changes nothing. */
  function Receive(listing: Listing, result: FetchResult): Listing {
    match result
    case Loaded(recipes, pages) => listing.(recipes := recipes, pages := pages)
    case Failed => listing
  }

  /** Responses applied in the order they arrive. */
  function ReceiveAll(listing: Listing, results: seq<FetchResult>): Listing
    decreases |results|
  {
    if results == [] then listing else ReceiveAll(Receive(listing, results[0]), results[1..])
  }

  /**
   * A response replaces `recipes` and `pages` together and never touches
   * `page`; a failure leaves the state as it was.
   */
  lemma ReceiveReplacesTogether(listing: Listing, result: FetchResult)
    ensures Receive(listing, result).page == listing.page
    ensures result.Loaded? ==> Receive(listing, result).recipes == result.recipes && Receive(listing, result).pages == result.pages
    ensures result.Failed? ==> Receive(listing, result) == listing
  {
  }

  /**
   * Responses arriving in any order: the last one to arrive wins, `recipes`
   * and `pages` always come from the same response (or both from the state
   * before), and `page` is never touched.
   */
  lemma {:induction false} LastResponseWins(listing: Listing, results: seq<FetchResult>)
    decreases |results|
    ensures var final := ReceiveAll(listing, results);
      && final.page == listing.page
      && ((forall i :: 0 <= i < |results| ==> results[i].Failed?) ==> final == listing)
      && (forall i :: 0 <= i < |results| && results[i].Loaded? && (forall j :: i < j < |results| ==> results[j].Failed?) ==>
            final.recipes == results[i].recipes && final.pages == results[i].pages)
  {
    if results != [] {
      var next := Receive(listing, results[0]);
      LastResponseWins(next, results[1..]);
      forall i | 0 <= i < |results| && results[i].Loaded? && (forall j :: i < j < |results| ==> results[j].Failed?)
        ensures ReceiveAll(listing, results).recipes == results[i].recipes
        ensures ReceiveAll(listing, results).pages == results[i].pages
      {
        if i > 0 {
          assert results[1..][i - 1] == results[i];
          assert forall j :: i - 1 < j < |results[1..]| ==> results[1..][j] == results[j + 1];
        } else {
          assert forall j :: 0 <= j < |results[1..]| ==> results[1..][j] == results[j + 1];
        }
      }
      if forall i :: 0 <= i < |results| ==> results[i].Failed? {
        assert forall j :: 0 <= j < |results[1..]| ==> results[1..][j] == results[j + 1];
      }
    }
  }

  /** Whatever the arrival order, the final rows and page count never mix two responses. */
  lemma {:induction false} ResponsesNeverMix(listing: Listing, results: seq<FetchResult>)
    decreases |results|
    ensures var final := ReceiveAll(listing, results);
      || (final.recipes == listing.recipes && final.pages == listing.pages)
      || (exists i :: 0 <= i < |results| && results[i] == Loaded(final.recipes, final.pages))
  {
    if results != [] {
      ResponsesNeverMix(Receive(listing, results[0]), results[1..]);
      var final := ReceiveAll(listing, results);
      if exists i :: 0 <= i < |results[1..]| && results[1..][i] == Loaded(final.recipes, final.pages) {
        var i :| 0 <= i < |results[1..]| && results[1..][i] == Loaded(final.recipes, final.pages);
        assert results[i + 1] == Loaded(final.recipes, final.pages);
      } else if results[0].Loaded? {
        assert results[0] == Loaded(final.recipes, final.pages);
      }
    }
  }

  // ---------------------------------------------------------------------
  // The component

  /** `'/api/v1/users/' + userId + '/recipes'`. */
  function FavouritesUrl(userId: Value): string {
    "/api/v1/users/" + ToText(userId) + "/recipes"
  }

  class RecipeList {
    var recipes: seq<Value>
    var pages: int
    var page: Value

    function Snapshot(): Listing
      reads this
    {
      Listing(recipes, pages, page)
    }

    /** The initial state: no recipes, one page, page 1 (a number). */
    constructor()
      ensures Snapshot() == InitialListing
    {
      recipes, pages, page := [], 1, Num(1);
    }

    /**
     * `getRecipes(data)`: one GET of the listing. `data` travels as the
     * request configuration, not as query parameters, so the URL is the
     * same whatever page is asked for.
     */
    method GetRecipes(config: Value) returns (request: Effect)
      ensures request.HttpGet? && request.url == RecipesPath && request.config == config
    {
      request := HttpGet(RecipesPath, config);
    }

    /** `componentDidMount`: the first listing request, with the default `{}`. */
    method ComponentDidMount() returns (request: Effect)
      ensures request.HttpGet? && request.url == RecipesPath && request.config == Obj(map[])
    {
      request := GetRecipes(Obj(map[]));
    }

    /** The listing response arrives. */
    method ReceiveRecipes(result: FetchResult)
      modifies this
      ensures Snapshot() == Receive(old(Snapshot()), result)
      ensures page == old(page)
      ensures result.Loaded? ==> recipes == result.recipes && pages == result.pages
      ensures result.Failed? ==> recipes == old(recipes) && pages == old(pages)
    {
      match result {
        case Loaded(loaded, count) =>
          recipes, pages := loaded, count;
        case Failed =>
      }
    }

    /**
     * A click on the selector entry whose `data-page` is `requested`: `page`
     * becomes that string, `recipes` and `pages` stay as they are, and the
     * listing is requested with `{ page }`.
     */
    method HandlePagination(requested: string) returns (request: Effect)
      modifies this
      ensures page == Str(requested)
      ensures recipes == old(recipes) && pages == old(pages)
      ensures request == HttpGet(RecipesPath, Obj(map["page" := Str(requested)]))
    {
      page := Str(requested);
      request := GetRecipes(Obj(map["page" := Str(requested)]));
    }

    /**
     * `handleAddFavourite`: reads `user.userId` (a TypeError when the user is
     * undefined or null, before anything is sent), posts `{ recipeId }`, and
     * on success shows one green toast. The POST has no `catch`, so a
     * rejection ends the chain unhandled. It leaves the component state alone.
     */
    method HandleAddFavourite(user: Value, recipeId: Value, reply: Reply) returns (log: seq<Effect>, completion: Completion)
      ensures IsNullish(user) ==> log == [] && completion == Faulted
      ensures !IsNullish(user) ==>
        && |log| >= 1
        && log[0] == HttpPost(FavouritesUrl(Get(user, "userId")), Obj(map["recipeId" := recipeId]))
        && log[1..] == (if reply.Resolved? then [Toast(Str(FavouriteMessage), 3000, "green")] else [])
        && (completion == Faulted <==> reply.Rejected?)
    {
      if IsNullish(user) {
        return [], Faulted;
      }
      var userId := Get(user, "userId");
      log := [HttpPost(FavouritesUrl(userId), Obj(map["recipeId" := recipeId]))];
      match reply {
        case Resolved(_) =>
          log := log + [Toast(Str(FavouriteMessage), 3000, "green")];
          completion := Settled;
        case Rejected(_) =>
          completion := Faulted;
      }
    }

    /** The selector loop `for (let i = 1; i <= pages; i++)`. */
    method Pagination() returns (links: seq<PageLink>)
      ensures links == PageLinks(pages, page)
    {
      links := [];
      var i := 1;
      while i <= pages
        invariant 1 <= i && (pages >= 1 ==> i <= pages + 1) && (pages < 1 ==> i == 1)
        invariant links == PageLinks(i - 1, page)
      {
        assert PageLinks(i, page) == PageLinks(i - 1, page) + [Link(i, page)];
        links := links + [Link(i, page)];
        i := i + 1;
      }
    }

    /** The row loop `for (let i = 0; i < recipes.length; i += 3)` with `recipes.slice(i, i + 3)`. */
    method RecipeRows() returns (rows: seq<seq<Value>>)
      ensures IsRowLayout(rows, recipes)
    {
      rows := [];
      var i := 0;
      while i < |recipes|
        invariant i == ChunkSize * |rows|
        invariant Concat(rows) == recipes[..Min(i, |recipes|)]
        invariant forall k :: 0 <= k < |rows| ==> 0 < |rows[k]| <= ChunkSize
        invariant forall k :: 0 <= k < |rows| && (k < |rows| - 1 || i <= |recipes|) ==> |rows[k]| == ChunkSize
      {
        var chunk := recipes[i..Min(i + ChunkSize, |recipes|)];
        ConcatAppend(rows, chunk);
        assert recipes[..i] + chunk == recipes[..Min(i + ChunkSize, |recipes|)];
        rows := rows + [chunk];
        i := i + ChunkSize;
      }
      assert recipes[..Min(i, |recipes|)] == recipes;
    }
  }
}
