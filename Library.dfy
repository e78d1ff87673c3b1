/** The image library screen (components/Library.tsx): case-insensitive
    search over the prompts, division of the matches into pages of twelve,
    and the page and search handlers. The search and the pages are pure
    functions of the image list; the search term and the current page are
    the fields of `LibraryState`. */
module Library {
  import opened Types

  /** Images shown on one page. */
  const ImagesPerPage: nat := 12

  function Min(a: int, b: int): int
  {
    if a <= b then a else b
  }

  // ----- Case folding and substring search -------------------------------------

  /** Lower-case for the ASCII letters; every other character is kept. */
  function LowerChar(c: char): char
  {
    if 'A' <= c <= 'Z' then (c as int + 32) as char else c
  }

  function ToLower(s: string): string
  {
    seq(|s|, i requires 0 <= i < |s| => LowerChar(s[i]))
  }

  /** Lower-casing twice is lower-casing once. */
  lemma ToLowerIdempotent(s: string)
    ensures ToLower(ToLower(s)) == ToLower(s)
  {
    assert forall i :: 0 <= i < |s| ==> ToLower(ToLower(s))[i] == ToLower(s)[i];
  }

  /** `s.includes(t)`: the search tries every start position in turn. */
  predicate Includes(s: string, t: string)
    decreases |s|
  {
    t <= s || (|s| > 0 && Includes(s[1..], t))
  }

  /** `t` occurs in `s` at position `i`. */
  ghost predicate OccursAt(s: string, t: string, i: int)
  {
    0 <= i && i + |t| <= |s| && s[i..i + |t|] == t
  }

  /** The search succeeds exactly when the term occurs somewhere in the text. */
  lemma {:induction false} IncludesIffOccurs(s: string, t: string)
    ensures Includes(s, t) <==> exists i :: OccursAt(s, t, i)
    decreases |s|
  {
    if t <= s {
      assert s[0..|t|] == t;
      assert OccursAt(s, t, 0);
    } else if |s| == 0 {
      assert forall i :: !OccursAt(s, t, i);
    } else {
      IncludesIffOccurs(s[1..], t);
      forall i | OccursAt(s, t, i) && i > 0
        ensures OccursAt(s[1..], t, i - 1)
      {
        assert s[1..][i - 1..i - 1 + |t|] == s[i..i + |t|];
      }
      if Includes(s, t) {
        var j :| OccursAt(s[1..], t, j);
        assert s[1..][j..j + |t|] == s[j + 1..j + 1 + |t|];
        assert OccursAt(s, t, j + 1);
      } else {
        assert !OccursAt(s, t, 0);
      }
    }
  }

  /** The empty term occurs in every text. */
  lemma IncludesEmpty(s: string)
    ensures Includes(s, [])
  {
  }

  /** An image matches when its lower-cased prompt contains the lower-cased term. */
  predicate Matches(img: Image, term: string)
  {
    Includes(ToLower(img.prompt), ToLower(term))
  }

  /** Matching ignores the case of the term. */
  lemma MatchesIgnoresCase(img: Image, term: string)
    ensures Matches(img, ToLower(term)) == Matches(img, term)
  {
    ToLowerIdempotent(term);
  }

  // ----- Filtering ------------------------------------------------------------------

  /** `images.filter(...)`: the matching images, in their original order. */
  function FilterImages(images: seq<Image>, term: string): (r: seq<Image>)
    ensures |r| <= |images|
    ensures forall x :: x in r ==> x in images && Matches(x, term)
    decreases |images|
  {
    if images == [] then []
    else (if Matches(images[0], term) then [images[0]] else []) + FilterImages(images[1..], term)
  }

  /** Every matching image is kept. */
  lemma {:induction false} FilterKeepsMatches(images: seq<Image>, term: string, x: Image)
    requires x in images && Matches(x, term)
    ensures x in FilterImages(images, term)
    decreases |images|
  {
    if images[0] != x {
      FilterKeepsMatches(images[1..], term, x);
    }
  }

  /** `a` is obtained from `b` by deleting elements. */
  ghost predicate IsSubsequence<T>(a: seq<T>, b: seq<T>)
    decreases |b|
  {
    a == [] || (b != [] && (IsSubsequence(a, b[1..]) || (a[0] == b[0] && IsSubsequence(a[1..], b[1..]))))
  }

  /** The filtered list keeps the original order: it is a subsequence. */
  lemma {:induction false} FilterIsSubsequence(images: seq<Image>, term: string)
    ensures IsSubsequence(FilterImages(images, term), images)
    decreases |images|
  {
    if images != [] {
      FilterIsSubsequence(images[1..], term);
      var rest := FilterImages(images[1..], term);
      if Matches(images[0], term) {
        assert FilterImages(images, term) == [images[0]] + rest;
        assert ([images[0]] + rest)[1..] == rest;
      } else {
        assert FilterImages(images, term) == rest;
      }
    }
  }

  /** An empty search term keeps every image. */
  lemma {:induction false} FilterEmptyTerm(images: seq<Image>)
    ensures FilterImages(images, "") == images
    decreases |images|
  {
    if images != [] {
      FilterEmptyTerm(images[1..]);
      assert ToLower("") == "";
      assert Matches(images[0], "");
      assert [images[0]] + images[1..] == images;
    }
  }

  /** Filtering a concatenation filters each part. */
  lemma {:induction false} FilterAppend(a: seq<Image>, b: seq<Image>, term: string)
    ensures FilterImages(a + b, term) == FilterImages(a, term) + FilterImages(b, term)
    decreases |a|
  {
    if a == [] {
      assert a + b == b;
    } else {
      var head := if Matches(a[0], term) then [a[0]] else [];
      assert (a + b)[0] == a[0];
      assert (a + b)[1..] == a[1..] + b;
      calc {
        FilterImages(a + b, term);
        head + FilterImages(a[1..] + b, term);
        { FilterAppend(a[1..], b, term); }
        head + (FilterImages(a[1..], term) + FilterImages(b, term));
        (head + FilterImages(a[1..], term)) + FilterImages(b, term);
        FilterImages(a, term) + FilterImages(b, term);
      }
    }
  }

  /** Searching the search result again changes nothing. */
  lemma {:induction false} FilterIdempotent(images: seq<Image>, term: string)
    ensures FilterImages(FilterImages(images, term), term) == FilterImages(images, term)
    decreases |images|
  {
    if images != [] {
      var rest := FilterImages(images[1..], term);
      FilterIdempotent(images[1..], term);
      if Matches(images[0], term) {
        var r := [images[0]] + rest;
        assert r[0] == images[0] && r[1..] == rest;
        calc {
          FilterImages(r, term);
          [images[0]] + FilterImages(rest, term);
          [images[0]] + rest;
        }
      } else {
        assert FilterImages(images, term) == rest;
      }
    }
  }

  // ----- Pages ------------------------------------------------------------------

  /** `Math.ceil(n / 12)`: the number of pages needed for `n` images. */
  function TotalPages(n: nat): (r: nat)
    ensures ImagesPerPage * r >= n
    ensures r > 0 ==> ImagesPerPage * (r - 1) < n
    ensures r == 0 <==> n == 0
  {
    (n + ImagesPerPage - 1) / ImagesPerPage
  }

  /** The position that `Array.prototype.slice` derives from an argument: a
      negative one counts from the end, and either kind is clamped to the
      bounds of the sequence. */
  function ClampIndex(i: int, len: nat): (r: nat)
    ensures r <= len
    ensures 0 <= i ==> r == Min(i, len)
    ensures i < 0 ==> r + Min(-i, len) == len
  {
    if i < 0 then (if len + i < 0 then 0 else len + i)
    else if i > len then len
    else i
  }

  /** `s.slice(start, end)`. */
  function Slice<T>(s: seq<T>, start: int, end: int): (r: seq<T>)
    ensures |r| <= |s|
    ensures 0 <= start <= end <= |s| ==> r == s[start..end]
    ensures 0 <= end <= start ==> r == []
    ensures forall x :: x in r ==> x in s
  {
    var from := ClampIndex(start, |s|);
    var to := ClampIndex(end, |s|);
    if from < to then s[from..to] else []
  }

  /** The images shown on the given 1-based page. */
  function PageOf<T>(filtered: seq<T>, page: int): (r: seq<T>)
    ensures |r| <= ImagesPerPage
    ensures page == 0 ==> r == []
    ensures forall x :: x in r ==> x in filtered
  {
    var start := (page - 1) * ImagesPerPage;
    Slice(filtered, start, start + ImagesPerPage)
  }

  /** A page from 1 on is the window of at most twelve images that starts at
      (page - 1) * 12, cut off at the end of the list. */
  lemma PageWindow<T>(filtered: seq<T>, page: int)
    requires page >= 1
    ensures var start := (page - 1) * ImagesPerPage;
      PageOf(filtered, page) ==
        if start >= |filtered| then []
        else filtered[start..Min(start + ImagesPerPage, |filtered|)]
    ensures |PageOf(filtered, page)| <= ImagesPerPage
  {
  }

  /** Every page before the last is full, the last holds the remainder, and
      pages past the last are empty. */
  lemma PageSizes<T>(filtered: seq<T>, page: int)
    requires page >= 1
    ensures var n, total := |filtered|, TotalPages(|filtered|);
      (page < total ==> |PageOf(filtered, page)| == ImagesPerPage) &&
      (page == total ==> |PageOf(filtered, page)| == n - ImagesPerPage * (total - 1)) &&
      (page > total ==> PageOf(filtered, page) == [])
  {
    PageWindow(filtered, page);
  }

  /** A list of 25 images gives pages of 12, 12 and 1, and nothing on the
      pages 0 and 4. */
  lemma TwentyFiveImages<T>(filtered: seq<T>)
    requires |filtered| == 25
    ensures TotalPages(|filtered|) == 3
    ensures |PageOf(filtered, 1)| == 12 && |PageOf(filtered, 2)| == 12 && |PageOf(filtered, 3)| == 1
    ensures PageOf(filtered, 0) == [] && PageOf(filtered, 4) == []
  {
    PageSizes(filtered, 1);
    PageSizes(filtered, 2);
    PageSizes(filtered, 3);
    PageSizes(filtered, 4);
  }

  /** A negative page is not rejected by `slice`: its window counts from the
      end of the list, so page -1 of 25 images shows twelve of them. */
  lemma NegativePageCountsFromEnd<T>(filtered: seq<T>)
    requires |filtered| == 25
    ensures PageOf(filtered, -1) == filtered[1..13]
  {
  }

  /** When nothing matches there are no pages, and every page is empty. */
  lemma NoMatchesNoPages<T>(filtered: seq<T>, page: int)
    requires filtered == []
    ensures TotalPages(|filtered|) == 0 && PageOf(filtered, page) == []
  {
  }

  /** Pages 1 to m, one after the other. */
  function PagesUpTo<T>(filtered: seq<T>, m: nat): seq<T>
  {
    if m == 0 then [] else PagesUpTo(filtered, m - 1) + PageOf(filtered, m)
  }

  /** The first m pages together are the first 12 * m images. */
  lemma {:induction false} PagesUpToPrefix<T>(filtered: seq<T>, m: nat)
    ensures PagesUpTo(filtered, m) == filtered[..Min(ImagesPerPage * m, |filtered|)]
  {
    if m > 0 {
      PagesUpToPrefix(filtered, m - 1);
      PageWindow(filtered, m);
      var lo := Min(ImagesPerPage * (m - 1), |filtered|);
      var hi := Min(ImagesPerPage * m, |filtered|);
      assert filtered[..lo] + filtered[lo..hi] == filtered[..hi];
    }
  }

  /** The pages partition the filtered list: read in order, pages 1 to
      TotalPages hold every image exactly once. */
  lemma PagesPartition<T>(filtered: seq<T>)
    ensures PagesUpTo(filtered, TotalPages(|filtered|)) == filtered
  {
    PagesUpToPrefix(filtered, TotalPages(|filtered|));
    assert filtered[..|filtered|] == filtered;
  }

  /** More images never need fewer pages. */
  lemma TotalPagesMonotone(n: nat, m: nat)
    requires n <= m
    ensures TotalPages(n) <= TotalPages(m)
  {
  }

  /** The page numbers that the library can hold: from 1 on, and within the
      page count unless it is the first page. */
  predicate PageInRange(page: int, total: nat)
  {
    1 <= page && (page == 1 || page <= total)
  }

  /** A page in range is empty only when nothing matches, so no stale page is
      ever shown. */
  lemma PageInRangeNonEmpty<T>(filtered: seq<T>, page: int)
    requires PageInRange(page, TotalPages(|filtered|))
    ensures PageOf(filtered, page) == [] <==> filtered == []
  {
    PageWindow(filtered, page);
  }

  // ----- Screen state ---------------------------------------------------------------

  /** The library screen while it is shown. The image list is the component's
      prop; the shell can prepend to it while the screen is shown. */
  class LibraryState {
    var images: seq<Image>
    var searchTerm: string
    var currentPage: int

    ghost predicate Valid()
      reads this
    {
      PageInRange(currentPage, PageCount())
    }

    function FilteredImages(): seq<Image>
      reads this
    {
      FilterImages(images, searchTerm)
    }

    function PageCount(): nat
      reads this
    {
      TotalPages(|FilteredImages()|)
    }

    /** The images that the grid renders. */
    function PaginatedImages(): (r: seq<Image>)
      reads this
      ensures |r| <= ImagesPerPage
      ensures forall x :: x in r ==> x in images && Matches(x, searchTerm)
    {
      PageOf(FilteredImages(), currentPage)
    }

    /** The "Previous" button is disabled on page 1. */
    function PreviousDisabled(): (r: bool)
      reads this
      ensures Valid() ==> (!r <==> PageInRange(currentPage - 1, PageCount()))
    {
      currentPage == 1
    }

    /** The "Next" button is disabled on the last page. */
    function NextDisabled(): (r: bool)
      reads this
      ensures Valid() && ShowsPageControls() ==> (!r <==> PageInRange(currentPage + 1, PageCount()))
    {
      currentPage == PageCount()
    }

    /** The page controls are shown only when there is more than one page. */
    function ShowsPageControls(): (r: bool)
      reads this
      ensures r <==> |FilteredImages()| > ImagesPerPage
    {
      PageCount() > 1
    }

    constructor (images: seq<Image>)
      ensures Valid()
      ensures this.images == images && searchTerm == "" && currentPage == 1
      ensures FilteredImages() == images
    {
      this.images := images;
      searchTerm := "";
      currentPage := 1;
      new;
      FilterEmptyTerm(images);
    }

    /** Moves to the requested page when it exists and ignores it otherwise. */
    method HandlePageChange(page: int)
      requires Valid()
      modifies this
      ensures Valid()
      ensures images == old(images) && searchTerm == old(searchTerm)
      ensures currentPage == if 1 <= page <= PageCount() then page else old(currentPage)
    {
      if page >= 1 && page <= PageCount() {
        currentPage := page;
      }
    }

    /** Typing in the search box replaces the term and returns to page 1. */
    method OnSearchChange(value: string)
      modifies this
      ensures Valid()
      ensures images == old(images) && searchTerm == value && currentPage == 1
    {
      searchTerm := value;
      currentPage := 1;
    }

    /** A new image from the shell reaches the screen while it is shown: the
        list grows at the front, the search term and the page are kept, and
        the page count can only grow, so the page stays in range. Page p
        then shows the window one image earlier when the new image matches. */
    method ReceiveNewImage(img: Image)
      requires Valid()
      modifies this
      ensures Valid()
      ensures images == [img] + old(images)
      ensures searchTerm == old(searchTerm) && currentPage == old(currentPage)
      ensures FilteredImages() == (if Matches(img, searchTerm) then [img] else []) + old(FilteredImages())
      ensures PageCount() >= old(PageCount())
    {
      ghost var before := FilteredImages();
      assert ([img] + images)[0] == img && ([img] + images)[1..] == images;
      images := [img] + images;
      TotalPagesMonotone(|before|, |FilteredImages()|);
    }

    /** The "Previous" button: one page back unless already on page 1. */
    method ClickPrevious()
      requires Valid()
      modifies this
      ensures Valid()
      ensures images == old(images) && searchTerm == old(searchTerm)
      ensures currentPage == if old(currentPage) > 1 then old(currentPage) - 1 else old(currentPage)
      ensures old(PreviousDisabled()) <==> currentPage == old(currentPage)
    {
      HandlePageChange(currentPage - 1);
    }

    /** The "Next" button: one page on unless already on the last page. */
    method ClickNext()
      requires Valid()
      modifies this
      ensures Valid()
      ensures images == old(images) && searchTerm == old(searchTerm)
      ensures currentPage == if old(currentPage) < PageCount() then old(currentPage) + 1 else old(currentPage)
      ensures old(ShowsPageControls()) ==> (old(NextDisabled()) <==> currentPage == old(currentPage))
    {
      HandlePageChange(currentPage + 1);
    }
  }

  /** The page the screen renders is empty only when nothing matches: a
      stale page past the end of the results is never shown. */
  lemma ShownPageNeverStale(ls: LibraryState)
    requires ls.Valid()
    ensures ls.PaginatedImages() == [] <==> ls.FilteredImages() == []
  {
    PageInRangeNonEmpty(ls.FilteredImages(), ls.currentPage);
  }
}
