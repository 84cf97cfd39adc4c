/**
 * The public testimonials carousel: the index of the shown testimonial, moved by
 * the next and previous buttons, the five-second interval and the dots, and the
 * list, which starts as the built-in testimonials and is replaced by fetched ones.
 */
module TestimonialsSection {
  import opened Json
  import opened RecordLists

  const DefaultImage := "https://images.pexels.com/photos/774909/pexels-photo-774909.jpeg?auto=compress&cs=tinysrgb&w=150&h=150&fit=crop"

  function StaticTestimonial(id: real, name: string, role: string, content: string, image: string): Record
  {
    map["id" := Num(id), "name" := Str(name), "role" := Str(role), "content" := Str(content),
        "rating" := Num(5.0), "image" := Str(image)]
  }

  const StaticTestimonials: seq<Record> := [
    StaticTestimonial(1.0, "Sarah Johnson", "Food Critic",
      "Bella Vista delivers an exceptional dining experience that surpasses expectations. The attention to detail in every dish is remarkable.",
      DefaultImage),
    StaticTestimonial(2.0, "Michael Chen", "Culinary Enthusiast",
      "From the moment you walk in, you know you are in for something special. The service is impeccable and the food is extraordinary.",
      "https://images.pexels.com/photos/697509/pexels-photo-697509.jpeg?auto=compress&cs=tinysrgb&w=150&h=150&fit=crop"),
    StaticTestimonial(3.0, "Emma Rodriguez", "Business Executive",
      "Perfect for both intimate dinners and business meetings. The ambiance is sophisticated and the cuisine is world-class.",
      "https://images.pexels.com/photos/1239291/pexels-photo-1239291.jpeg?auto=compress&cs=tinysrgb&w=150&h=150&fit=crop")]

  // ---------------------------------------------------------------------------
  // Index arithmetic. The index is never negative, so JavaScript's truncating `%`
  // agrees with Dafny's here.

  /** `(i + 1) % n`. */
  function NextIndex(i: nat, n: nat): (j: nat)
    requires n > 0
    ensures j < n
    ensures i + 1 < n ==> j == i + 1
    ensures i == n - 1 ==> j == 0
  {
    (i + 1) % n
  }

  /** `(i - 1 + n) % n`. */
  function PrevIndex(i: nat, n: nat): (j: nat)
    requires n > 0
    ensures j < n
    ensures 0 < i <= n ==> j == i - 1
    ensures i == 0 ==> j == n - 1
  {
    (i - 1 + n) % n
  }

  /** Previous undoes next and next undoes previous. */
  lemma NextPrevInverse(i: nat, n: nat)
    requires i < n
    ensures PrevIndex(NextIndex(i, n), n) == i
    ensures NextIndex(PrevIndex(i, n), n) == i
  {
  }

  /**
   * The index after `k` advances. No step leaves the index as it was, even past
   * the end (the stale index a shorter fetched list leaves); one step brings it
   * back into range.
   */
  function Advance(i: nat, n: nat, k: nat): (j: nat)
    requires n > 0
    ensures k == 0 ==> j == i
    ensures k > 0 || i < n ==> j < n
  {
    if k == 0 then i else NextIndex(Advance(i, n, k - 1), n)
  }

  /** Advancing `k` times moves the index `k` places round the circle. */
  lemma {:induction false} AdvanceIsRotation(i: nat, n: nat, k: nat)
    requires n > 0
    ensures k > 0 || i < n ==> Advance(i, n, k) == (i + k) % n
  {
    if k > 1 {
      AdvanceIsRotation(i, n, k - 1);
      ModSuccessor(i + k - 1, n);
    }
  }

  lemma ModSuccessor(m: nat, n: nat)
    requires n > 0
    ensures (m % n + 1) % n == (m + 1) % n
  {
    var q, r := m / n, m % n;
    assert m == q * n + r;
    if r + 1 < n {
      DivisionUnique(m + 1, n, q, r + 1);
    } else {
      assert m + 1 == (q + 1) * n + 0;
      DivisionUnique(m + 1, n, q + 1, 0);
    }
  }

  /** Euclidean division has one quotient and remainder. */
  lemma DivisionUnique(a: int, n: int, q: int, r: int)
    requires n > 0 && 0 <= r < n && a == q * n + r
    ensures a % n == r
  {
    var q', r' := a / n, a % n;
    assert (q - q') * n == r' - r;
    MultipleBound(q - q', n);
  }

  lemma MultipleBound(d: int, n: int)
    requires n > 0
    ensures d >= 1 ==> d * n >= n
    ensures d <= -1 ==> d * n <= -n
  {
  }

  /** `n` advances bring every valid index back to itself. */
  lemma FullCycle(i: nat, n: nat)
    requires i < n
    ensures Advance(i, n, n) == i
  {
    AdvanceIsRotation(i, n, n);
    DivisionUnique(i + n, n, 1, i);
  }

  // ---------------------------------------------------------------------------
  // Fetched data

  /**
   * The fallbacks for a fetched testimonial: `name`, `rating` and `image` fall back
   * when falsy, `content` is `comment || content || ''`, `role` falls back to ''.
   * Every other field is kept.
   */
  function Normalize(t: Record): (r: Record)
    ensures Field(r, "name") == Or(Field(t, "name"), Str("Anonymous"))
    ensures Field(r, "content") == Or(Or(Field(t, "comment"), Field(t, "content")), Str(""))
    ensures Field(r, "rating") == Or(Field(t, "rating"), Num(5.0))
    ensures Field(r, "image") == Or(Field(t, "image"), Str(DefaultImage))
    ensures Field(r, "role") == Or(Field(t, "role"), Str(""))
    ensures Truthy(Field(r, "name")) && Truthy(Field(r, "rating")) && Truthy(Field(r, "image"))
    ensures r.Keys == t.Keys + {"name", "content", "rating", "image", "role"}
    ensures forall k :: k in t && k !in {"name", "content", "rating", "image", "role"} ==> r[k] == t[k]
  {
    t + map[
      "name" := Or(Field(t, "name"), Str("Anonymous")),
      "content" := Or(Or(Field(t, "comment"), Field(t, "content")), Str("")),
      "rating" := Or(Field(t, "rating"), Num(5.0)),
      "image" := Or(Field(t, "image"), Str(DefaultImage)),
      "role" := Or(Field(t, "role"), Str(""))]
  }

  /** Normalising a normalised testimonial changes nothing. */
  lemma NormalizeIdempotent(t: Record)
    ensures Normalize(Normalize(t)) == Normalize(t)
  {
    var n := Normalize(t);
    assert Normalize(n).Keys == n.Keys;
  }

  // ---------------------------------------------------------------------------
  // The component's state

  class Carousel {
    var current: nat
    var testimonials: seq<Record>

    /** The list is never empty: it starts non-empty and is replaced only by a non-empty one. */
    ghost predicate Valid()
      reads this
    {
      testimonials != []
    }

    /** The shown index names an entry of the list. */
    ghost predicate InRange()
      reads this
    {
      current < |testimonials|
    }

    constructor ()
      ensures Valid() && InRange()
      ensures current == 0 && testimonials == StaticTestimonials
    {
      current := 0;
      testimonials := StaticTestimonials;
    }

    /** `nextTestimonial`, and the interval's step every five seconds. */
    method Next()
      requires Valid()
      modifies this
      ensures Valid() && InRange()
      ensures current == NextIndex(old(current), |testimonials|) && testimonials == old(testimonials)
    {
      current := NextIndex(current, |testimonials|);
    }

    /** `prevTestimonial`. */
    method Prev()
      requires Valid()
      modifies this
      ensures Valid() && InRange()
      ensures current == PrevIndex(old(current), |testimonials|) && testimonials == old(testimonials)
    {
      current := PrevIndex(current, |testimonials|);
    }

    /** A dot: the dots are drawn one per testimonial, so `index` is in range. */
    method Select(index: nat)
      requires Valid() && index < |testimonials|
      modifies this
      ensures Valid() && InRange()
      ensures current == index && testimonials == old(testimonials)
    {
      current := index;
    }

    /** The mount fetch settling, as written: the list may change, the index does not. */
    method ApplyFetch(fetched: Fetched)
      requires Valid()
      modifies this
      ensures Valid()
      ensures testimonials == ReplaceIfNonEmpty(old(testimonials), fetched, Normalize) && current == old(current)
    {
      testimonials := ReplaceIfNonEmpty(testimonials, fetched, Normalize);
    }

    /** The mount fetch settling with the index reset when the list is replaced, which keeps it in range. */
    method ApplyFetchReset(fetched: Fetched)
      requires Valid() && InRange()
      modifies this
      ensures Valid() && InRange()
      ensures testimonials == ReplaceIfNonEmpty(old(testimonials), fetched, Normalize)
      ensures current == if testimonials == old(testimonials) then old(current) else 0
    {
      var next := ReplaceIfNonEmpty(testimonials, fetched, Normalize);
      if next != testimonials {
        current := 0;
      }
      testimonials := next;
    }
  }

  /**
   * The index is kept while the list is replaced, so a shorter fetched list
   * leaves it past the end: the carousel reaches the third built-in testimonial
   * and then one testimonial arrives.
   */
  method StaleIndexAfterFetch(t: Record) returns (c: Carousel)
    ensures c.current == 2 && |c.testimonials| == 1 && !c.InRange()
  {
    c := new Carousel();
    c.Next();
    c.Next();
    c.ApplyFetch(Array([t]));
  }
}
