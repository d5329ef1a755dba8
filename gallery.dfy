/**
  The photo gallery: a fixed catalog of images, a category filter over it, and a lightbox that
  opens one image and steps to the catalog neighbour before or after it.
*/
module Gallery {
  import opened Wrappers
  import opened Seqs

  datatype GalleryImage = GalleryImage(id: int, category: string, src: string, alt: string, description: string)

  /** The filter buttons, in the order they are shown; "All" is the default and disables filtering. */
  const Categories: seq<string> :=
    ["All", "Window Cleaning", "Gutter Cleaning", "Pressure Washing", "Christmas Lights"]

  /**
    The catalog, in the order it is declared: four blocks, one per category. Image paths are
    relative to the site's base URL. The ids are unique but not ascending: the three
    window-cleaning images added last (13, 14, 15) sit with their category, before id 4.
  */
  function Catalog(baseUrl: string): seq<GalleryImage> {
    WindowImages(baseUrl) + GutterImages(baseUrl) + PressureImages(baseUrl) + LightImages(baseUrl)
  }

  function WindowImages(baseUrl: string): seq<GalleryImage> {
    [ GalleryImage(1, "Window Cleaning", baseUrl + "gallery/gallery1.jpg",
        "High-rise commercial window cleaning", "Professional window cleaning for multi-story buildings"),
      GalleryImage(2, "Window Cleaning", baseUrl + "gallery/gallery2.jpg",
        "Residential window cleaning", "Crystal clear windows for your home"),
      GalleryImage(3, "Window Cleaning", baseUrl + "gallery/gallery3.jpg",
        "Storefront window cleaning", "Retail storefront maintenance"),
      GalleryImage(13, "Window Cleaning", baseUrl + "gallery/gallery9.jpg",
        "Residential window cleaning", "Crystal clear windows for your home"),
      GalleryImage(14, "Window Cleaning", baseUrl + "gallery/gallery10.jpg",
        "Residential window cleaning", "Crystal clear windows for your home"),
      GalleryImage(15, "Window Cleaning", baseUrl + "gallery/gallery11.jpg",
        "Residential window cleaning", "Crystal clear windows for your home") ]
  }

  function GutterImages(baseUrl: string): seq<GalleryImage> {
    [ GalleryImage(4, "Gutter Cleaning", baseUrl + "gallery/gallery4.jpg",
        "Professional gutter cleaning", "Thorough gutter cleaning and maintenance"),
      GalleryImage(5, "Gutter Cleaning", baseUrl + "gallery/gallery5.jpg",
        "Gutter maintenance and repair", "Gutter inspection and debris removal"),
      GalleryImage(6, "Gutter Cleaning", baseUrl + "gallery/gallery6.jpg",
        "Leaf removal from gutters", "Seasonal gutter cleaning service") ]
  }

  function PressureImages(baseUrl: string): seq<GalleryImage> {
    [ GalleryImage(7, "Pressure Washing", baseUrl + "gallery/pressure-1.jpg",
        "Driveway pressure washing", "Deep cleaning of concrete surfaces"),
      GalleryImage(8, "Pressure Washing", baseUrl + "gallery/pressure-2.jpg",
        "Deck pressure washing", "Wooden deck restoration and cleaning"),
      GalleryImage(9, "Pressure Washing", baseUrl + "gallery/pressure-3.jpg",
        "House siding pressure washing", "Exterior house cleaning service") ]
  }

  function LightImages(baseUrl: string): seq<GalleryImage> {
    [ GalleryImage(10, "Christmas Lights", baseUrl + "gallery/gallery7.jpg",
        "Professional Christmas light installation", "Residential holiday lighting"),
      GalleryImage(11, "Christmas Lights", baseUrl + "gallery/gallery8.jpg",
        "Commercial Christmas lighting", "Business holiday lighting displays"),
      GalleryImage(12, "Christmas Lights", baseUrl + "gallery/gallery12.jpg",
        "Custom holiday light designs", "Custom holiday lighting solutions") ]
  }

  function Ids(images: seq<GalleryImage>): seq<int> {
    seq(|images|, i requires 0 <= i < |images| => images[i].id)
  }

  predicate UniqueIds(images: seq<GalleryImage>) {
    forall i, j :: 0 <= i < j < |images| ==> images[i].id != images[j].id
  }

  /** The grid's test for one category: `img => img.category === filter`. */
  function InCategory(filter: string): GalleryImage -> bool {
    (img: GalleryImage) => img.category == filter
  }

  /** The grid's contents: the whole catalog under "All", otherwise the entries of that one category. */
  function FilteredImages(catalog: seq<GalleryImage>, filter: string): seq<GalleryImage> {
    if filter == "All" then catalog
    else Filter(catalog, InCategory(filter))
  }

  /** `catalog.findIndex(img => img.id === id)`: the first position holding that id, or -1. */
  function FindIndex(catalog: seq<GalleryImage>, id: int): (r: int)
    ensures -1 <= r < |catalog|
    ensures r >= 0 ==> catalog[r].id == id
    ensures forall j :: 0 <= j < |catalog| && (r == -1 || j < r) ==> catalog[j].id != id
  {
    if catalog == [] then -1
    else if catalog[0].id == id then 0
    else
      var k := FindIndex(catalog[1..], id);
      if k == -1 then -1 else k + 1
  }

  /**
    What the lightbox's "next" does with `image` open: `catalog[currentIndex + 1]` if that entry
    exists, otherwise nothing. An image whose id is not in the catalog has index -1, so its
    "next" is the first entry.
  */
  function NextImage(catalog: seq<GalleryImage>, image: GalleryImage): Option<GalleryImage> {
    var i := FindIndex(catalog, image.id);
    if i + 1 < |catalog| then Some(catalog[i + 1]) else None
  }

  /** What "previous" does: `catalog[currentIndex - 1]` if that entry exists, otherwise nothing. */
  function PrevImage(catalog: seq<GalleryImage>, image: GalleryImage): Option<GalleryImage> {
    var i := FindIndex(catalog, image.id);
    if i - 1 >= 0 then Some(catalog[i - 1]) else None
  }

  /** The lightbox draws its "previous" arrow when the open image's catalog index is above 0. */
  predicate ShowsPrev(catalog: seq<GalleryImage>, image: GalleryImage) {
    FindIndex(catalog, image.id) > 0
  }

  /** It draws its "next" arrow when that index is below the last one. */
  predicate ShowsNext(catalog: seq<GalleryImage>, image: GalleryImage) {
    FindIndex(catalog, image.id) < |catalog| - 1
  }

  // ---------------------------------------------------------------------------------------------
  // The filter

  /**
    "All" shows the catalog as it is; any other filter shows exactly the catalog entries of that
    category, in catalog order, as many as the catalog holds.
  */
  lemma FilteredImagesSpec(catalog: seq<GalleryImage>, filter: string)
    ensures filter == "All" ==> FilteredImages(catalog, filter) == catalog
    ensures filter != "All" ==>
      && (forall img :: img in FilteredImages(catalog, filter) <==> img in catalog && img.category == filter)
      && IsSubsequence(FilteredImages(catalog, filter), catalog)
      && |FilteredImages(catalog, filter)| == CountIf(catalog, InCategory(filter))
  {
    if filter != "All" {
      FilterIsSubsequence(catalog, InCategory(filter));
      FilterLength(catalog, InCategory(filter));
    }
  }

  /** Every image the grid shows is a catalog entry, whatever the filter. */
  lemma FilteredFromCatalog(catalog: seq<GalleryImage>, filter: string, k: nat)
    requires k < |FilteredImages(catalog, filter)|
    ensures FilteredImages(catalog, filter)[k] in catalog
  {
  }

  // ---------------------------------------------------------------------------------------------
  // Lightbox navigation

  /** With unique ids, looking up a catalog entry's id finds that entry. */
  lemma FindIndexOfEntry(catalog: seq<GalleryImage>, i: nat)
    requires UniqueIds(catalog) && i < |catalog|
    ensures FindIndex(catalog, catalog[i].id) == i
  {
  }

  /** "Next" from catalog index i opens catalog[i + 1]; at the last index it does nothing. */
  lemma NextAt(catalog: seq<GalleryImage>, i: nat)
    requires UniqueIds(catalog) && i < |catalog|
    ensures NextImage(catalog, catalog[i]) == if i + 1 < |catalog| then Some(catalog[i + 1]) else None
  {
    FindIndexOfEntry(catalog, i);
  }

  /** "Previous" from catalog index i opens catalog[i - 1]; at index 0 it does nothing. */
  lemma PrevAt(catalog: seq<GalleryImage>, i: nat)
    requires UniqueIds(catalog) && i < |catalog|
    ensures PrevImage(catalog, catalog[i]) == if i > 0 then Some(catalog[i - 1]) else None
  {
    FindIndexOfEntry(catalog, i);
  }

  /** Stepping forward and then back returns to the image that was open, and the other way round. */
  lemma PrevUndoesNext(catalog: seq<GalleryImage>, i: nat)
    requires UniqueIds(catalog) && i < |catalog|
    ensures NextImage(catalog, catalog[i]).Some? ==>
      PrevImage(catalog, NextImage(catalog, catalog[i]).value) == Some(catalog[i])
    ensures PrevImage(catalog, catalog[i]).Some? ==>
      NextImage(catalog, PrevImage(catalog, catalog[i]).value) == Some(catalog[i])
  {
    NextAt(catalog, i);
    PrevAt(catalog, i);
    if i + 1 < |catalog| {
      PrevAt(catalog, i + 1);
    }
    if i > 0 {
      NextAt(catalog, i - 1);
    }
  }

  /**
    An arrow is drawn exactly when clicking it opens an image, and for an open catalog entry
    that image is a different one: a visible arrow always moves.
  */
  lemma ArrowsMatchMoves(catalog: seq<GalleryImage>, image: GalleryImage)
    ensures ShowsNext(catalog, image) <==> NextImage(catalog, image).Some?
    ensures ShowsPrev(catalog, image) <==> PrevImage(catalog, image).Some?
    ensures UniqueIds(catalog) && image in catalog ==>
      (NextImage(catalog, image).Some? ==> NextImage(catalog, image).value != image) &&
      (PrevImage(catalog, image).Some? ==> PrevImage(catalog, image).value != image)
  {
    if UniqueIds(catalog) && image in catalog {
      var i :| 0 <= i < |catalog| && catalog[i] == image;
      NextAt(catalog, i);
      PrevAt(catalog, i);
    }
  }

  /**
    An image whose id is not in the catalog has index -1: "next" jumps to the first entry and
    "previous" does nothing.
  */
  lemma NavigationFromOutside(catalog: seq<GalleryImage>, image: GalleryImage)
    requires |catalog| > 0
    requires forall j :: 0 <= j < |catalog| ==> catalog[j].id != image.id
    ensures NextImage(catalog, image) == Some(catalog[0])
    ensures PrevImage(catalog, image) == None
  {
  }

  // ---------------------------------------------------------------------------------------------
  // Facts about the site's own catalog

  lemma IdsAppend(a: seq<GalleryImage>, b: seq<GalleryImage>)
    ensures Ids(a + b) == Ids(a) + Ids(b)
  {
  }

  /** Two id-unique lists whose ids do not overlap concatenate to an id-unique list. */
  lemma UniqueAppend(a: seq<GalleryImage>, b: seq<GalleryImage>)
    requires UniqueIds(a) && UniqueIds(b)
    requires forall x, y :: x in a && y in b ==> x.id != y.id
    ensures UniqueIds(a + b)
  {
    forall i, j | 0 <= i < j < |a + b|
      ensures (a + b)[i].id != (a + b)[j].id
    {
      if j < |a| {
      } else if i >= |a| {
        assert (a + b)[i] == b[i - |a|] && (a + b)[j] == b[j - |a|];
      } else {
        assert (a + b)[i] in a && (a + b)[j] == b[j - |a|];
      }
    }
  }

  /** The window block holds ids 1 to 3 and 13 to 15; the other blocks hold 4 to 12 in order. */
  lemma BlockIdRanges(baseUrl: string)
    ensures UniqueIds(WindowImages(baseUrl)) && UniqueIds(GutterImages(baseUrl))
    ensures UniqueIds(PressureImages(baseUrl)) && UniqueIds(LightImages(baseUrl))
    ensures forall x :: x in WindowImages(baseUrl) ==> x.id <= 3 || x.id >= 13
    ensures forall x :: x in GutterImages(baseUrl) ==> 4 <= x.id <= 6
    ensures forall x :: x in PressureImages(baseUrl) ==> 7 <= x.id <= 9
    ensures forall x :: x in LightImages(baseUrl) ==> 10 <= x.id <= 12
  {
  }

  /** The catalog's ids, in catalog order. */
  lemma CatalogIdSequence(baseUrl: string)
    ensures Ids(Catalog(baseUrl)) == [1, 2, 3, 13, 14, 15, 4, 5, 6, 7, 8, 9, 10, 11, 12]
  {
    var w, g, p, l := WindowImages(baseUrl), GutterImages(baseUrl), PressureImages(baseUrl), LightImages(baseUrl);
    assert Ids(w) == [1, 2, 3, 13, 14, 15];
    assert Ids(g) == [4, 5, 6];
    assert Ids(p) == [7, 8, 9];
    assert Ids(l) == [10, 11, 12];
    IdsAppend(w, g);
    IdsAppend(w + g, p);
    IdsAppend(w + g + p, l);
  }

  /** The catalog's ids are pairwise distinct. */
  lemma CatalogIds(baseUrl: string)
    ensures UniqueIds(Catalog(baseUrl))
  {
    BlockIdRanges(baseUrl);
    var w, g, p, l := WindowImages(baseUrl), GutterImages(baseUrl), PressureImages(baseUrl), LightImages(baseUrl);
    UniqueAppend(w, g);
    assert forall x :: x in w + g ==> x in w || x in g;
    UniqueAppend(w + g, p);
    assert forall x :: x in w + g + p ==> x in w + g || x in p;
    UniqueAppend(w + g + p, l);
  }

  /** "Next" from image 3 opens image 13, not image 4, whichever filter is active. */
  lemma NextFromThreeIsThirteen(baseUrl: string)
    ensures Catalog(baseUrl)[2].id == 3
    ensures NextImage(Catalog(baseUrl), Catalog(baseUrl)[2]) == Some(Catalog(baseUrl)[3])
    ensures Catalog(baseUrl)[3].id == 13
  {
    CatalogIds(baseUrl);
    CatalogIdSequence(baseUrl);
    NextAt(Catalog(baseUrl), 2);
    assert Ids(Catalog(baseUrl))[2] == 3 && Ids(Catalog(baseUrl))[3] == 13;
  }

  /** Filtering the catalog filters each category block in turn. */
  lemma FilterBlocks(baseUrl: string, filter: string)
    ensures Filter(Catalog(baseUrl), InCategory(filter)) ==
      Filter(WindowImages(baseUrl), InCategory(filter)) + Filter(GutterImages(baseUrl), InCategory(filter))
      + Filter(PressureImages(baseUrl), InCategory(filter)) + Filter(LightImages(baseUrl), InCategory(filter))
  {
    var w, g, p, l := WindowImages(baseUrl), GutterImages(baseUrl), PressureImages(baseUrl), LightImages(baseUrl);
    FilterAppend(w + g + p, l, InCategory(filter));
    FilterAppend(w + g, p, InCategory(filter));
    FilterAppend(w, g, InCategory(filter));
  }

  /** Every image of a block belongs to that block's category. */
  lemma BlockCategories(baseUrl: string)
    ensures forall x :: x in WindowImages(baseUrl) ==> x.category == "Window Cleaning"
    ensures forall x :: x in GutterImages(baseUrl) ==> x.category == "Gutter Cleaning"
    ensures forall x :: x in PressureImages(baseUrl) ==> x.category == "Pressure Washing"
    ensures forall x :: x in LightImages(baseUrl) ==> x.category == "Christmas Lights"
  {
  }

  /** A block all of one category is kept whole by its own filter and emptied by any other. */
  lemma BlockFilter(block: seq<GalleryImage>, category: string, filter: string)
    requires forall x :: x in block ==> x.category == category
    ensures Filter(block, InCategory(filter)) == if filter == category then block else []
  {
    if filter == category {
      FilterAll(block, InCategory(filter));
    } else {
      FilterNone(block, InCategory(filter));
    }
  }

  /** The catalog's block for a category name; no block for any other string. */
  function BlockOf(baseUrl: string, filter: string): seq<GalleryImage> {
    if filter == "Window Cleaning" then WindowImages(baseUrl)
    else if filter == "Gutter Cleaning" then GutterImages(baseUrl)
    else if filter == "Pressure Washing" then PressureImages(baseUrl)
    else if filter == "Christmas Lights" then LightImages(baseUrl)
    else []
  }

  /** Four blocks of which all but one are empty concatenate to that one. */
  lemma OneNonEmptyBlock(a: seq<GalleryImage>, b: seq<GalleryImage>, c: seq<GalleryImage>, d: seq<GalleryImage>)
    ensures b == [] && c == [] && d == [] ==> a + b + c + d == a
    ensures a == [] && c == [] && d == [] ==> a + b + c + d == b
    ensures a == [] && b == [] && d == [] ==> a + b + c + d == c
    ensures a == [] && b == [] && c == [] ==> a + b + c + d == d
  {
  }

  /**
    Under any filter but "All" the grid is exactly the block of that category, in catalog order:
    the six window photos, the three gutter, pressure-washing or light photos, or nothing at all
    for a string that names no category.
  */
  lemma FilterIsBlock(baseUrl: string, filter: string)
    requires filter != "All"
    ensures FilteredImages(Catalog(baseUrl), filter) == BlockOf(baseUrl, filter)
  {
    var w, g, p, l := WindowImages(baseUrl), GutterImages(baseUrl), PressureImages(baseUrl), LightImages(baseUrl);
    var q := InCategory(filter);
    FilterBlocks(baseUrl, filter);
    BlockCategories(baseUrl);
    BlockFilter(w, "Window Cleaning", filter);
    BlockFilter(g, "Gutter Cleaning", filter);
    BlockFilter(p, "Pressure Washing", filter);
    BlockFilter(l, "Christmas Lights", filter);
    OneNonEmptyBlock(Filter(w, q), Filter(g, q), Filter(p, q), Filter(l, q));
    if BlockOf(baseUrl, filter) == [] {
      assert Filter(w, q) + Filter(g, q) + Filter(p, q) + Filter(l, q) == [];
    }
  }

  /** Under "Christmas Lights" the grid shows exactly ids 10, 11 and 12. */
  lemma ChristmasLightsFilter(baseUrl: string)
    ensures Ids(FilteredImages(Catalog(baseUrl), "Christmas Lights")) == [10, 11, 12]
  {
    FilterIsBlock(baseUrl, "Christmas Lights");
  }

  /** Under "Gutter Cleaning" the grid shows exactly ids 4, 5 and 6, and under "All" all 15. */
  lemma GutterCleaningFilter(baseUrl: string)
    ensures Ids(FilteredImages(Catalog(baseUrl), "Gutter Cleaning")) == [4, 5, 6]
    ensures |FilteredImages(Catalog(baseUrl), "All")| == 15
  {
    FilterIsBlock(baseUrl, "Gutter Cleaning");
  }

  /**
    Navigation ignores the filter. Under "Window Cleaning", "next" from image 3 opens image 13;
    under "Christmas Lights", "previous" from the first card (image 10) opens image 9, a
    pressure-washing image the grid is not showing.
  */
  method FilterScenario(baseUrl: string) returns (afterNext: int, afterPrev: int)
    ensures afterNext == 13
    ensures afterPrev == 9
  {
    var gallery := new GalleryView(baseUrl);
    var c := Catalog(baseUrl);
    CatalogIds(baseUrl);
    CatalogIdSequence(baseUrl);
    FilterIsBlock(baseUrl, "Window Cleaning");
    FilterIsBlock(baseUrl, "Christmas Lights");
    assert c[2] == WindowImages(baseUrl)[2] && c[12] == LightImages(baseUrl)[0];
    assert Ids(c)[3] == 13 && Ids(c)[11] == 9;

    gallery.SetFilter("Window Cleaning");
    gallery.OpenCard(2);
    NextAt(c, 2);
    gallery.Next();
    afterNext := gallery.selected.value.id;

    gallery.SetFilter("Christmas Lights");
    gallery.OpenCard(0);
    PrevAt(c, 12);
    gallery.Prev();
    afterPrev := gallery.selected.value.id;
  }

  // ---------------------------------------------------------------------------------------------
  // The component's state

  class GalleryView {
    const catalog: seq<GalleryImage>
    /** The image open in the lightbox; None when it is closed. */
    var selected: Option<GalleryImage>
    /** One loading flag shared by every card in the grid. */
    var loading: bool
    var filter: string

    ghost predicate Valid()
      reads this
    {
      && UniqueIds(catalog)
      && filter in Categories
      && (selected.Some? ==> selected.value in catalog)
    }

    /** The component mounts with the lightbox closed, the shared flag loading, and no filter. */
    constructor (baseUrl: string)
      ensures Valid()
      ensures catalog == Catalog(baseUrl)
      ensures selected == None && loading && filter == "All"
    {
      catalog := Catalog(baseUrl);
      selected := None;
      loading := true;
      filter := "All";
      new;
      CatalogIds(baseUrl);
    }

    /** The cards the grid currently shows. */
    function Visible(): seq<GalleryImage>
      reads this
    {
      FilteredImages(catalog, filter)
    }

    /** A filter button: only the filter changes; an open image stays open even outside the category. */
    method SetFilter(category: string)
      requires Valid() && category in Categories
      modifies this`filter
      ensures Valid()
      ensures filter == category
      ensures selected == old(selected) && loading == old(loading)
    {
      filter := category;
    }

    /** Clicking card k of the grid opens exactly that image. */
    method OpenCard(k: nat)
      requires Valid() && k < |Visible()|
      modifies this`selected
      ensures Valid()
      ensures selected == Some(old(Visible())[k])
      ensures filter == old(filter) && loading == old(loading)
    {
      FilteredFromCatalog(catalog, filter, k);
      selected := Some(Visible()[k]);
    }

    /** The close button or a click on the backdrop closes the lightbox. */
    method Close()
      requires Valid()
      modifies this`selected
      ensures Valid()
      ensures selected == None
      ensures filter == old(filter) && loading == old(loading)
    {
      selected := None;
    }

    /** The "next" arrow. */
    method Next()
      requires Valid() && selected.Some?
      modifies this`selected
      ensures Valid() && selected.Some?
      ensures var n := NextImage(catalog, old(selected).value);
        selected == if n.Some? then n else old(selected)
      ensures filter == old(filter) && loading == old(loading)
    {
      var n := NextImage(catalog, selected.value);
      if n.Some? {
        selected := n;
      }
    }

    /** The "previous" arrow. */
    method Prev()
      requires Valid() && selected.Some?
      modifies this`selected
      ensures Valid() && selected.Some?
      ensures var p := PrevImage(catalog, old(selected).value);
        selected == if p.Some? then p else old(selected)
      ensures filter == old(filter) && loading == old(loading)
    {
      var p := PrevImage(catalog, selected.value);
      if p.Some? {
        selected := p;
      }
    }

    /**
      Any card's image finishing loading clears the one shared flag, for every card at once.
      No other operation writes the flag, so it never returns to true.
    */
    method ImageLoaded()
      requires Valid()
      modifies this`loading
      ensures Valid()
      ensures !loading
      ensures selected == old(selected) && filter == old(filter)
    {
      loading := false;
    }
  }

}
