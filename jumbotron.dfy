/**
 * The landing page's inspiration carousel: three slides, arrows that step
 * forward and back around the ring, and indicator dots that jump to a slide.
 */
module Jumbotron {
  import opened Wrappers

  datatype Slide = Slide(
    id: int,
    image: Option<string>,
    title: string,
    subtitle: Option<string>,
    description: string,
    link: string,
    author: Option<string>,
    color: string,
    kind: string)

  const Slides: seq<Slide> := [
    Slide(1, Some("/images/x1.png"), "Khetan's Inspiration", None,
          "The spark that ignited AI-powered personalized outreach",
          "https://x.com/bhavye_khetan/status/1929379775602373012", Some("@bhavye_khetan"), "indigo", "inspiration"),
    Slide(2, Some("/images/x2.png"), "Roy Lee's Bold Approach", None,
          "Revolutionary AI assistance that breaks all boundaries",
          "https://x.com/im_roy_lee/status/1936138361011585190", Some("@im_roy_lee"), "purple", "inspiration"),
    Slide(3, None, "Acknowledgement: DeerFlow", Some("Open Source Deep Research Framework"),
          "Originated from Open Source, give back to Open Source",
          "https://github.com/bytedance/deer-flow", None, "cyan", "acknowledgement")
  ]

  /** JavaScript's `%`: the remainder takes the sign of the dividend. */
  function JsRem(a: int, n: int): int
    requires n > 0
  {
    if a >= 0 then a % n else -((-a) % n)
  }

  /** `(prev + 1) % n`. */
  function NextIndex(i: int, n: int): (r: int)
    requires n > 0
    ensures 0 <= i < n ==> 0 <= r < n && r == (if i == n - 1 then 0 else i + 1)
  {
    ModWrap(i + 1, n);
    JsRem(i + 1, n)
  }

  /** `(prev - 1 + n) % n`. */
  function PrevIndex(i: int, n: int): (r: int)
    requires n > 0
    ensures 0 <= i < n ==> 0 <= r < n && r == (if i == 0 then n - 1 else i - 1)
  {
    ModWrap(i - 1 + n, n);
    JsRem(i - 1 + n, n)
  }

  /** A remainder below twice the divisor needs at most one subtraction. */
  lemma ModWrap(a: int, n: int)
    requires n > 0
    ensures 0 <= a < n ==> a % n == a
    ensures n <= a < 2 * n ==> a % n == a - n
  {
    if n <= a < 2 * n {
      assert a == n * 1 + (a - n);
    }
  }

  /** Forward and back undo each other on every index in range. */
  lemma NextPrevInverse(i: int, n: int)
    requires n > 0 && 0 <= i < n
    ensures PrevIndex(NextIndex(i, n), n) == i
    ensures NextIndex(PrevIndex(i, n), n) == i
  {
  }

  function StepsForward(i: int, n: int, k: nat): int
    requires n > 0
  {
    if k == 0 then i else NextIndex(StepsForward(i, n, k - 1), n)
  }

  /** k steps forward land on (i + k) mod n. */
  lemma {:induction false} StepsForwardIsModular(i: int, n: int, k: nat)
    requires n > 0 && 0 <= i < n
    ensures StepsForward(i, n, k) == (i + k) % n
  {
    if k > 0 {
      StepsForwardIsModular(i, n, k - 1);
      ModSucc(i + k - 1, n);
    }
  }

  /** Adding one to a number moves its remainder one place round the ring. */
  lemma ModSucc(a: nat, n: int)
    requires n > 0
    ensures (a + 1) % n == (if a % n == n - 1 then 0 else a % n + 1)
  {
    var q, r := a / n, a % n;
    assert a == q * n + r;
    if r == n - 1 {
      assert a + 1 == (q + 1) * n;
      ModOfMultiple(q + 1, n);
    } else {
      assert a + 1 == q * n + (r + 1);
      ModUnique(a + 1, q, r + 1, n);
    }
  }

  lemma ModOfMultiple(q: nat, n: int)
    requires n > 0
    ensures (q * n) % n == 0
  {
    ModUnique(q * n, q, 0, n);
  }

  /** The remainder is the only r in [0, n) with a == q * n + r. */
  lemma ModUnique(a: int, q: int, r: int, n: int)
    requires n > 0 && 0 <= r < n && a == q * n + r
    ensures a % n == r
  {
    var q0, r0 := a / n, a % n;
    assert q * n + r == q0 * n + r0;
    if q > q0 {
      assert (q - q0) * n == q * n - q0 * n;
      MulAtLeast(q - q0, n);
    } else if q < q0 {
      assert (q0 - q) * n == q0 * n - q * n;
      MulAtLeast(q0 - q, n);
    }
  }

  lemma {:induction false} MulAtLeast(d: int, n: int)
    requires d >= 1 && n > 0
    ensures d * n >= n
    decreases d
  {
    if d > 1 {
      MulAtLeast(d - 1, n);
      assert d * n == (d - 1) * n + n;
    }
  }

  /** Going all the way round the ring returns to the start. */
  lemma FullCircle(i: int)
    requires 0 <= i < |Slides|
    ensures StepsForward(i, |Slides|, |Slides|) == i
  {
    StepsForwardIsModular(i, |Slides|, |Slides|);
    assert (i + 3) % 3 == i;
  }

  /** What the current slide is drawn as: an image card for inspirations, a text card otherwise. */
  datatype Card = ImageCard(link: string) | TextCard(link: string)

  function CardFor(s: Slide): (r: Card)
    ensures r.ImageCard? <==> s.kind == "inspiration"
    ensures r.link == s.link
  {
    if s.kind == "inspiration" then ImageCard(s.link) else TextCard(s.link)
  }

  class Carousel {
    var current: int

    predicate Valid()
      reads this
    {
      0 <= current < |Slides|
    }

    constructor()
      ensures Valid() && current == 0
    {
      current := 0;
    }

    method Next()
      requires Valid()
      modifies this
      ensures Valid() && current == NextIndex(old(current), |Slides|)
    {
      current := JsRem(current + 1, |Slides|);
    }

    method Prev()
      requires Valid()
      modifies this
      ensures Valid() && current == PrevIndex(old(current), |Slides|)
    {
      current := JsRem(current - 1 + |Slides|, |Slides|);
    }

    /** An indicator dot: there is one per slide, and it selects that slide. */
    method Select(index: int)
      requires 0 <= index < |Slides|
      modifies this
      ensures Valid() && current == index
    {
      current := index;
    }

    function Card(): Card
      requires Valid()
      reads this
    {
      CardFor(Slides[current])
    }
  }

  /** The first two slides show images, the last one the acknowledgement text. */
  lemma SlideCards()
    ensures CardFor(Slides[0]).ImageCard? && CardFor(Slides[1]).ImageCard? && CardFor(Slides[2]).TextCard?
  {
  }
}
