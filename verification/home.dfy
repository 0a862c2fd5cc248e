/** The `Home` component as an object: its state variables are fields, and
    each handler is a method that updates them as the component's setters
    do. `Snapshot` gives the abstract search state, and every method is tied
    to the matching transition of `SearchState`, so the lemmas proved there
    hold of every sequence of calls. */
module HomeComponent {
  import opened Opt
  import opened SearchState
  import ImageExport

  class Home {
    var images: seq<Image>
    var searchQuery: string
    var category: string
    var loading: bool
    var hasMore: bool
    var page: int
    var fileFormat: string
    var width: int
    var height: int
    /** The dependency values the two fetch effects saw when they last ran. */
    var committed: Option<Deps>

    function Snapshot(): State
      reads this
    {
      State(images, searchQuery, category, loading, hasMore, page, committed)
    }

    predicate Valid()
      reads this
    {
      page >= 1
    }

    constructor ()
      ensures Valid()
      ensures Snapshot() == Initial()
      ensures images == [] && searchQuery == "nature" && category == "nature"
      ensures !loading && hasMore && page == 1 && committed == None
      ensures fileFormat == "jpg" && width == 500 && height == 500
    {
      images := [];
      searchQuery := InitialQuery;
      category := InitialCategory;
      loading := false;
      hasMore := true;
      page := 1;
      fileFormat := "jpg";
      width := 500;
      height := 500;
      committed := None;
    }

    method HandleSearchChange(query: string)
      requires Valid()
      modifies this`searchQuery, this`images, this`page, this`hasMore
      ensures Valid()
      ensures searchQuery == query && images == [] && page == 1 && hasMore
      ensures category == old(category) && loading == old(loading) && committed == old(committed)
      ensures Snapshot() == Step(old(Snapshot()), SearchChange(query))
    {
      searchQuery := query;
      images := [];
      page := 1;
      hasMore := true;
    }

    method HandleCategoryChange(newCategory: string)
      requires Valid()
      modifies this`category, this`images, this`page, this`hasMore
      ensures Valid()
      ensures category == newCategory && images == [] && page == 1 && hasMore
      ensures searchQuery == old(searchQuery) && loading == old(loading) && committed == old(committed)
      ensures Snapshot() == Step(old(Snapshot()), CategoryChange(newCategory))
    {
      category := newCategory;
      images := [];
      page := 1;
      hasMore := true;
    }

    /** Called by the infinite scroller; it does not look at `loading`. */
    method FetchMoreData()
      requires Valid()
      modifies this`page
      ensures Valid()
      ensures page == if old(hasMore) then old(page) + 1 else old(page)
      ensures page >= old(page)
      ensures Snapshot() == Step(old(Snapshot()), MoreData)
    {
      if hasMore {
        page := page + 1;
      }
    }

    /** The part of `fetchImages` that runs before its request is awaited.
        The request's page and criteria only shape the URL. */
    method FetchImages(request: Request)
      modifies this`loading
      ensures loading
    {
      loading := true;
    }

    /** The rest of `fetchImages`, once its request has settled: the hits are
        appended to whatever the list holds by then, an empty page switches
        `hasMore` off, and `loading` goes off in every case. */
    method FetchImagesSettled(response: Response)
      requires Valid()
      modifies this`images, this`hasMore, this`loading
      ensures Valid() && !loading
      ensures response.Failed? ==> images == old(images) && hasMore == old(hasMore)
      ensures response.Hits? ==> images == old(images) + response.hits
      ensures response.Hits? ==> hasMore == (old(hasMore) && |response.hits| > 0)
      ensures Snapshot() == Step(old(Snapshot()), Settle(response))
    {
      match response {
        case Hits(newImages) =>
          if |newImages| == 0 {
            hasMore := false;
          }
          images := images + newImages;
        case Failed =>
      }
      loading := false;
    }

    /** A commit: the criteria effect, then the page effect, each calling
        `fetchImages` when its dependencies changed. */
    method RunEffects() returns (requests: seq<Request>)
      requires Valid()
      modifies this`loading, this`committed
      ensures Valid()
      ensures requests == EffectRequests(old(committed), DepsOf(old(Snapshot())))
      ensures forall i :: 0 <= i < |requests| ==> requests[i] == Request(page, searchQuery, category)
      ensures loading == (old(loading) || requests != [])
      ensures committed == Some(Deps(searchQuery, category, page))
      ensures Snapshot() == Step(old(Snapshot()), Render)
    {
      var request := Request(page, searchQuery, category);
      requests := [];
      if committed.None? || committed.value.searchQuery != searchQuery || committed.value.category != category {
        FetchImages(request);
        requests := requests + [request];
      }
      if (committed.None? || committed.value.page != page) && page > 1 {
        FetchImages(request);
        requests := requests + [request];
      }
      committed := Some(Deps(searchQuery, category, page));
    }

    /** `downloadImage` with the current width and height; it changes no state. */
    method DownloadImage(url: string, id: int, format: string, browser: ImageExport.Browser)
      returns (saved: Option<ImageExport.SavedFile>)
      ensures saved == ImageExport.DownloadImage(url, id, format, width, height, browser)
      ensures saved.Some? ==> saved.value.canvasWidth == width && saved.value.canvasHeight == height
    {
      saved := ImageExport.DownloadImage(url, id, format, width, height, browser);
    }
  }

  /** A session driven through the class: a first render, a new query, and a
      page that settles late. What the model proves of the abstract state
      carries over to the object. */
  method Session(late: seq<Image>)
  {
    var home := new Home();
    var first := home.RunEffects();
    assert first == [Request(1, "nature", "nature")];
    home.HandleSearchChange("dog");
    var second := home.RunEffects();
    assert second == [Request(1, "dog", "nature")];
    home.FetchImagesSettled(Hits(late));
    assert home.images == late && home.searchQuery == "dog";
  }
}
