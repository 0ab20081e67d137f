/**
 * api/PagedList.java: a list over the pages of a paginated API answer.
 * Pages are kept by the offset of their first element and fetched on
 * demand.  The network is an oracle: the answers the API gives to
 * successive next-page requests, in order.
 */
module PagedList {
  import opened Base

  /** ApiObjectList: one page of an answer. */
  datatype ApiObjectList<T> = ApiObjectList(data: seq<T>, hasMore: bool, nextPage: Option<string>, totalCards: Option<int>)

  /** The elements of the pages one after the other. */
  function Concat<T>(pages: seq<ApiObjectList<T>>): seq<T>
  {
    if pages == [] then [] else Concat(pages[..|pages| - 1]) + pages[|pages| - 1].data
  }

  /** The element at offset i of the concatenation lies in the page whose range covers i. */
  lemma {:induction false} ConcatAt<T>(pages: seq<ApiObjectList<T>>, j: nat, i: int)
    requires j < |pages|
    requires |Concat(pages[..j])| <= i < |Concat(pages[..j])| + |pages[j].data|
    ensures i < |Concat(pages)|
    ensures Concat(pages)[i] == pages[j].data[i - |Concat(pages[..j])|]
  {
    var last := |pages| - 1;
    assert pages[..|pages|][..last] == pages[..last];
    if j == last {
      assert pages[..j] == pages[..last];
    } else {
      assert pages[..last][..j] == pages[..j];
      ConcatAt(pages[..last], j, i);
    }
  }

  /** The index of the last start offset at or below i (TreeMap.floorEntry), or -1 when there is none. */
  function FloorIndex(keys: seq<int>, i: int): (r: int)
    ensures -1 <= r < |keys|
    ensures r >= 0 ==> keys[r] <= i
    ensures forall j :: r < j < |keys| ==> keys[j] > i
  {
    if keys == [] then -1
    else if keys[|keys| - 1] <= i then |keys| - 1
    else FloorIndex(keys[..|keys| - 1], i)
  }

  /**
   * Each page starts where the elements before it end, and every page but
   * the last holds at least one element (so offsets ascend); a first page
   * is never empty.
   */
  predicate WellKeyed<T>(keys: seq<int>, pages: seq<ApiObjectList<T>>)
  {
    |keys| == |pages| &&
    (forall j :: 0 <= j < |keys| ==> keys[j] == |Concat(pages[..j])|) &&
    (forall j :: 0 <= j < |pages| - 1 ==> |pages[j].data| > 0) &&
    (|pages| > 0 ==> |pages[0].data| > 0)
  }

  /** Storing a page over an empty last page keeps the page map well keyed. */
  lemma ReplaceEmptyLast<T>(keys: seq<int>, pages: seq<ApiObjectList<T>>, next: ApiObjectList<T>)
    requires WellKeyed(keys, pages) && |pages| > 0 && |pages[|pages| - 1].data| == 0
    ensures WellKeyed(keys, pages[|pages| - 1 := next])
    ensures Concat(pages[|pages| - 1 := next]) == Concat(pages) + next.data
  {
    var last := |pages| - 1;
    var after := pages[last := next];
    assert last > 0;
    assert forall j :: 0 <= j <= last ==> after[..j] == pages[..j];
    assert after[..|after|][..last] == pages[..last];
    assert pages[..|pages|][..last] == pages[..last];
  }

  /** Appending a page after a non-empty last page, at the offset where the loaded elements end, keeps it well keyed. */
  lemma AppendAfterLast<T>(keys: seq<int>, pages: seq<ApiObjectList<T>>, next: ApiObjectList<T>)
    requires WellKeyed(keys, pages) && |pages| > 0 && |pages[|pages| - 1].data| > 0
    ensures WellKeyed(keys + [|Concat(pages)|], pages + [next])
    ensures Concat(pages + [next]) == Concat(pages) + next.data
  {
    var after := pages + [next];
    assert after[..|pages|] == pages;
    assert forall j :: 0 <= j <= |pages| ==> after[..j] == pages[..j];
  }

  /** floorEntry(index) and the element at offset index within that page; null (no page) for a negative index. */
  function Lookup<T>(keys: seq<int>, pages: seq<ApiObjectList<T>>, index: int): (r: Result<T>)
    requires WellKeyed(keys, pages) && |pages| > 0 && index < |Concat(pages)|
    ensures r.Ok? <==> index >= 0
    ensures r.Ok? ==> r.value == Concat(pages)[index]
    ensures r.Err? ==> r.error == NullPointer
  {
    var j := FloorIndex(keys, index);
    if j < 0 then
      assert keys[0] == 0 by { assert pages[..0] == []; }
      Err(NullPointer)
    else
      assert index < keys[j] + |pages[j].data| by {
        if j < |keys| - 1 {
          assert pages[..j + 1] == pages[..j] + [pages[j]];
        } else {
          assert pages[..|pages|] == pages;
        }
      }
      ConcatAt(pages, j, index);
      Ok(pages[j].data[index - keys[j]])
  }

  class PagedList<T> {
    /** What the API will answer to the next requests, in order. */
    var remote: seq<Result<ApiObjectList<T>>>
    /** The page map: start offsets in ascending order and the pages stored under them. */
    var keys: seq<int>
    var pages: seq<ApiObjectList<T>>

    /**
     * Each page starts where the loaded elements before it end, and every
     * page but the last holds at least one element (so offsets ascend).
     */
    predicate Valid()
      reads this
    {
      WellKeyed(keys, pages)
    }

    /** Everything loaded so far. */
    function Loaded(): seq<T>
      reads this
    {
      Concat(pages)
    }

    /** A null or empty first page leaves the list without pages. */
    constructor (remote: seq<Result<ApiObjectList<T>>>, pageOne: Option<ApiObjectList<T>>)
      ensures Valid() && this.remote == remote
      ensures if pageOne.Some? && |pageOne.value.data| > 0 then keys == [0] && pages == [pageOne.value] else keys == [] && pages == []
    {
      this.remote := remote;
      if pageOne.Some? && |pageOne.value.data| > 0 {
        keys := [0];
        pages := [pageOne.value];
      } else {
        keys := [];
        pages := [];
      }
      new;
      assert pages == [] || pages[..0] == [];
    }

    /**
     * fetchNextPage: nothing when the last page says there is no more;
     * otherwise the next answer is stored under the offset just past the
     * last page (replacing the last page when that one is empty).
     */
    method FetchNextPage() returns (r: Result<bool>)
      requires Valid() && |pages| > 0
      modifies this
      ensures Valid() && |pages| > 0
      ensures !old(pages[|pages| - 1].hasMore) ==> r == Ok(false) && unchanged(this)
      ensures old(pages[|pages| - 1].hasMore) && old(remote) == [] ==> r == Err(IOError) && unchanged(this)
      ensures old(pages[|pages| - 1].hasMore) && old(remote) != [] ==> remote == old(remote[1..])
      ensures old(pages[|pages| - 1].hasMore) && old(remote) != [] && old(remote[0]).Err? ==>
        r == Err(old(remote[0]).error) && keys == old(keys) && pages == old(pages)
      ensures old(pages[|pages| - 1].hasMore) && old(remote) != [] && old(remote[0]).Ok? ==>
        r == Ok(true) && Loaded() == old(Loaded()) + old(remote[0]).value.data &&
        (if |old(pages[|pages| - 1].data)| == 0 then pages == old(pages[|pages| - 1 := remote[0].value]) && keys == old(keys)
         else pages == old(pages) + [old(remote[0]).value] && keys == old(keys) + [old(|Loaded()|)])
      ensures r.Ok? ==> old(Loaded()) <= Loaded()
      ensures |remote| <= old(|remote|) && (r == Ok(true) ==> |remote| < old(|remote|))
    {
      var last := |pages| - 1;
      if !pages[last].hasMore {
        return Ok(false);
      }
      if remote == [] {
        return Err(IOError);
      }
      var answer := remote[0];
      remote := remote[1..];
      if answer.Err? {
        return Err(answer.error);
      }
      var next := answer.value;
      if |pages[last].data| == 0 {
        ReplaceEmptyLast(keys, pages, next);
        pages := pages[last := next];
      } else {
        AppendAfterLast(keys, pages, next);
        keys := keys + [|Concat(pages)|];
        pages := pages + [next];
      }
      return Ok(true);
    }

    /**
     * The loop of get(index): fetches pages while the loaded ones end at or
     * before index.  It stops with Ok once they reach past index, and with
     * NoSuchElementException when the last page says there is no more; a
     * fetch failure is rethrown wrapped.
     */
    method FetchUntil(index: int) returns (r: Result<()>)
      requires Valid() && |pages| > 0
      modifies this
      ensures Valid() && |pages| > 0
      ensures old(Loaded()) <= Loaded()
      ensures index < old(|Loaded()|) ==> unchanged(this) && r == Ok(())
      ensures r.Ok? ==> index < |Loaded()|
      ensures r.Err? ==> r.error in {NoSuchElement, IOError}
      ensures r == Err(NoSuchElement) ==> index >= |Loaded()| && !pages[|pages| - 1].hasMore
    {
      LastPageEnds();
      while keys[|keys| - 1] + |pages[|pages| - 1].data| <= index
        invariant Valid() && |pages| > 0
        invariant old(Loaded()) <= Loaded()
        invariant keys[|keys| - 1] + |pages[|pages| - 1].data| == |Loaded()|
        invariant index < old(|Loaded()|) ==> unchanged(this)
        decreases |remote|
      {
        var fetched := FetchNextPage();
        LastPageEnds();
        if fetched.Err? {
          return Err(IOError);
        }
        if !fetched.value {
          return Err(NoSuchElement);
        }
      }
      return Ok(());
    }

    /**
     * get(index): without pages it throws NoSuchElementException; otherwise it
     * runs the fetch loop and answers the element at offset index of the page
     * at or below index.  A negative index finds no such page.
     */
    method Get(index: int) returns (r: Result<T>)
      requires Valid()
      modifies this
      ensures Valid()
      ensures old(Loaded()) <= Loaded()
      ensures r.Ok? ==> 0 <= index < |Loaded()| && r.value == Loaded()[index]
      ensures old(pages) == [] ==> r == Err(NoSuchElement) && unchanged(this)
      ensures index < old(|Loaded()|) ==> unchanged(this)
      ensures 0 <= index < old(|Loaded()|) ==> r == Ok(old(Loaded())[index])
      ensures old(pages) != [] && index < 0 ==> r == Err(NullPointer)
      ensures r == Err(NoSuchElement) && old(pages) != [] ==> index >= |Loaded()| && !pages[|pages| - 1].hasMore
    {
      if pages == [] {
        return Err(NoSuchElement);
      }
      var reached := FetchUntil(index);
      if reached.Err? {
        return Err(reached.error);
      }
      r := Lookup(keys, pages, index);
    }

    /** The loaded elements end where the last page ends. */
    lemma LastPageEnds()
      requires Valid() && |pages| > 0
      ensures keys[|keys| - 1] + |pages[|pages| - 1].data| == |Loaded()|
    {
      assert pages[..|pages|] == pages;
    }

    /** size(): the first page's totalCards when present (cast to int), otherwise the number of loaded elements. */
    function Size(): int
      requires Valid()
      reads this
    {
      if pages == [] then 0
      else if pages[0].totalCards.Some? then Wrap32(pages[0].totalCards.value)
      else keys[|keys| - 1] + |pages[|pages| - 1].data|
    }

    predicate IsEmpty()
      reads this
    {
      pages == [] || pages[0].data == []
    }

    /** The list is empty exactly when it has no pages; without a total count the size is what is loaded. */
    lemma SizeMeaning()
      requires Valid()
      ensures IsEmpty() <==> pages == []
      ensures pages == [] ==> Size() == 0 && Loaded() == []
      ensures pages != [] && pages[0].totalCards.None? ==> Size() == |Loaded()| > 0
    {
      if pages != [] {
        LastPageEnds();
        FirstPageLoaded();
      }
    }

    lemma FirstPageLoaded()
      requires Valid() && |pages| > 0
      ensures |Loaded()| >= |pages[0].data|
    {
      ConcatGrows(pages);
    }
  }

  lemma {:induction false} ConcatGrows<T>(pages: seq<ApiObjectList<T>>)
    requires |pages| > 0
    ensures |Concat(pages)| >= |pages[0].data|
  {
    if |pages| > 1 {
      ConcatGrows(pages[..|pages| - 1]);
    } else {
      assert pages[..0] == [];
    }
  }
}
