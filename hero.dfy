/** The home-page carousel: the featured products loaded once on mount and
    the index of the slide on show, stepped forward and back with
    wrap-around. The products request's answer is a parameter; the autoplay
    timer is not modelled. */
module Hero {
  import opened Models

  /** The body of `GET /api/products`: the `{ success, data }` envelope or,
      from older versions of the route, a bare array. */
  datatype ProductsPayload = Envelope(success: bool, data: seq<Product>) | Bare(items: seq<Product>)

  const FallbackImage: string := "/images/hero.png"

  /** The `src` of a slide: the product's first image, or the hero picture
      when it has none. */
  function SlideImage(p: Product): (r: string)
    ensures |p.images| > 0 && p.images[0] != "" ==> r == p.images[0]
    ensures (|p.images| == 0 || p.images[0] == "") ==> r == FallbackImage
  {
    PrimaryImage(p.images, FallbackImage)
  }

  /** The updater of `nextSlide`. */
  function NextIndex(i: int, n: int): (r: int)
    requires 0 <= i < n
    ensures 0 <= r < n
    ensures r == (i + 1) % n
  {
    if i == n - 1 then 0 else i + 1
  }

  /** The updater of `prevSlide`. */
  function PrevIndex(i: int, n: int): (r: int)
    requires 0 <= i < n
    ensures 0 <= r < n
    ensures r == (i + n - 1) % n
  {
    if i == 0 then n - 1 else i - 1
  }

  /** Going back undoes going forward, and going forward undoes going back. */
  lemma {:induction false} PrevUndoesNext(i: int, n: int)
    requires 0 <= i < n
    ensures PrevIndex(NextIndex(i, n), n) == i
    ensures NextIndex(PrevIndex(i, n), n) == i
  {
  }

  /** The index after `k` forward steps from `i`. */
  function Advance(i: int, n: int, k: nat): (r: int)
    requires 0 <= i < n
    ensures 0 <= r < n
  {
    if k == 0 then i else NextIndex(Advance(i, n, k - 1), n)
  }

  /** Fewer forward steps than there are slides left move that many places. */
  lemma {:induction false} AdvanceWithoutWrap(i: int, n: int, k: nat)
    requires 0 <= i && i + k < n
    ensures Advance(i, n, k) == i + k
  {
    if k > 0 {
      AdvanceWithoutWrap(i, n, k - 1);
    }
  }

  /** `a` steps and then `b` more are `a + b` steps. */
  lemma {:induction false} AdvanceCompose(i: int, n: int, a: nat, b: nat)
    requires 0 <= i < n
    ensures Advance(Advance(i, n, a), n, b) == Advance(i, n, a + b)
  {
    if b > 0 {
      AdvanceCompose(i, n, a, b - 1);
    }
  }

  /** As many forward steps as there are slides bring the carousel back to
      the slide it started on. */
  lemma {:induction false} FullTurn(i: int, n: int)
    requires 0 <= i < n
    ensures Advance(i, n, n - i) == 0
    ensures Advance(i, n, n as nat) == i
  {
    var last := n - 1 - i;
    AdvanceWithoutWrap(i, n, last);
    assert Advance(i, n, last + 1) == NextIndex(n - 1, n) == 0;
    AdvanceCompose(i, n, n - i, i);
    AdvanceWithoutWrap(0, n, i);
  }

  class Carousel {
    var products: seq<Product>
    var currentIndex: int
    var loading: bool

    /** The index names a slide when there are slides, and is 0 when there
        are none. */
    ghost predicate Valid()
      reads this
    {
      if products == [] then currentIndex == 0 else 0 <= currentIndex < |products|
    }

    constructor ()
      ensures Valid() && products == [] && currentIndex == 0 && loading
    {
      products := [];
      currentIndex := 0;
      loading := true;
    }

    /** The mount effect: take the products from a successful envelope or a
        bare array, keep none otherwise (`None` is a failed request), and
        stop loading. */
    method Load(payload: Option<ProductsPayload>)
      requires Valid() && products == []
      modifies this
      ensures Valid() && !loading && currentIndex == 0
      ensures products == match payload
        case Some(Envelope(success, data)) => if success then data else []
        case Some(Bare(items)) => items
        case None => []
    {
      if payload.Some? {
        match payload.value
        case Envelope(success, data) =>
          if success {
            products := data;
          }
        case Bare(items) =>
          products := items;
      }
      loading := false;
    }

    /** `nextSlide`: nothing without slides, one place forward otherwise,
        from the last slide back to the first. */
    method NextSlide()
      requires Valid()
      modifies this
      ensures Valid() && products == old(products) && loading == old(loading)
      ensures products == [] ==> currentIndex == old(currentIndex)
      ensures products != [] ==> currentIndex == NextIndex(old(currentIndex), |products|)
    {
      if |products| == 0 {
        return;
      }
      currentIndex := if currentIndex == |products| - 1 then 0 else currentIndex + 1;
    }

    /** `prevSlide`: nothing without slides, one place back otherwise, from
        the first slide round to the last. */
    method PrevSlide()
      requires Valid()
      modifies this
      ensures Valid() && products == old(products) && loading == old(loading)
      ensures products == [] ==> currentIndex == old(currentIndex)
      ensures products != [] ==> currentIndex == PrevIndex(old(currentIndex), |products|)
    {
      if |products| == 0 {
        return;
      }
      currentIndex := if currentIndex == 0 then |products| - 1 else currentIndex - 1;
    }
  }
}
