/** The free lists and the zero lists, one for each cache colour, and the loop
    that adds a batch of pages to them run by run. */
module ColourLists {

  /** The cache colour of a frame. */
  function Colouring(colours: nat): nat -> nat
    requires colours > 0
  {
    p => p % colours
  }

  /** The pages of one colour, in order. */
  function OfColour(pages: seq<nat>, colour: nat -> nat, c: nat): seq<nat> {
    if pages == [] then []
    else (if colour(pages[0]) == c then [pages[0]] else []) + OfColour(pages[1..], colour, c)
  }

  lemma {:induction false} OfColourConcat(a: seq<nat>, b: seq<nat>, colour: nat -> nat, c: nat)
    ensures OfColour(a + b, colour, c) == OfColour(a, colour, c) + OfColour(b, colour, c)
  {
    if a == [] {
      assert a + b == b;
    } else {
      assert (a + b)[1..] == a[1..] + b;
      OfColourConcat(a[1..], b, colour, c);
    }
  }

  /** A run of one colour is all of that colour and none of any other. */
  lemma {:induction false} OfColourRun(run: seq<nat>, colour: nat -> nat, own: nat, c: nat)
    requires forall k :: 0 <= k < |run| ==> colour(run[k]) == own
    ensures OfColour(run, colour, c) == if c == own then run else []
  {
    if run != [] {
      OfColourRun(run[1..], colour, own, c);
      assert run == [run[0]] + run[1..];
    }
  }

  lemma {:induction false} OfColourCounts(pages: seq<nat>, colour: nat -> nat, c: nat, p: nat)
    ensures multiset(OfColour(pages, colour, c))[p] == if colour(p) == c then multiset(pages)[p] else 0
  {
    if pages != [] {
      OfColourCounts(pages[1..], colour, c, p);
      assert pages == [pages[0]] + pages[1..];
      assert multiset(pages) == multiset{pages[0]} + multiset(pages[1..]);
      assert multiset(OfColour(pages, colour, c))
          == (if colour(pages[0]) == c then multiset{pages[0]} else multiset{})
             + multiset(OfColour(pages[1..], colour, c));
    }
  }

  /** Which pages of one colour there are does not depend on the order. */
  lemma OfColourPermuted(a: seq<nat>, b: seq<nat>, colour: nat -> nat, c: nat)
    requires multiset(a) == multiset(b)
    ensures multiset(OfColour(a, colour, c)) == multiset(OfColour(b, colour, c))
  {
    forall p: nat ensures multiset(OfColour(a, colour, c))[p] == multiset(OfColour(b, colour, c))[p] {
      OfColourCounts(a, colour, c, p);
      OfColourCounts(b, colour, c, p);
    }
  }

  class PageLists {
    const listheads: array<seq<nat>>   // newest page first
    var totalAvailable: int            // of these lists
    var totalAvailablePages: int       // of all lists

    ghost predicate Valid()
      reads this
    {
      listheads.Length > 0
    }

    constructor (colours: nat)
      requires colours > 0
      ensures Valid() && listheads.Length == colours && fresh(listheads)
      ensures forall c :: 0 <= c < colours ==> listheads[c] == []
    {
      listheads := new seq<nat>[colours](_ => []);
      totalAvailable, totalAvailablePages := 0, 0;
    }

    /** qsort with a comparison that takes pointers to elements for elements:
        the result is some permutation. */
    method Sort(pages: array<nat>)
      requires pages as object != listheads
      modifies pages
      ensures multiset(pages[..]) == multiset(old(pages[..]))
    {
      var n: nat := *;
      while n > 0
        invariant multiset(pages[..]) == multiset(old(pages[..]))
      {
        var i: nat, j: nat := *, *;
        if 0 <= i < pages.Length && 0 <= j < pages.Length {
          pages[i], pages[j] := pages[j], pages[i];
        }
        n := n - 1;
      }
    }

    /** One section at the head of one list. */
    method InsertSection(colour: nat, section: seq<nat>)
      requires Valid() && colour < listheads.Length
      modifies `totalAvailable, `totalAvailablePages, listheads
      ensures totalAvailable == old(totalAvailable) + |section|
              && totalAvailablePages == old(totalAvailablePages) + |section|
      ensures forall c :: 0 <= c < listheads.Length ==>
                listheads[c] == if c == colour then section + old(listheads[c]) else old(listheads[c])
    {
      totalAvailable := totalAvailable + |section|;
      totalAvailablePages := totalAvailablePages + |section|;
      listheads[colour] := section + listheads[colour];
    }

    /** Every list has what it had, and the pages of its colour among `added`. */
    ghost predicate Added(was: seq<seq<nat>>, added: seq<nat>, colour: nat -> nat)
      requires |was| == listheads.Length
      reads listheads
    {
      forall c :: 0 <= c < |was| ==> multiset(listheads[c]) == multiset(was[c]) + multiset(OfColour(added, colour, c))
    }

    /** A run of one colour goes to its own list. */
    method AddRun(done: seq<nat>, run: seq<nat>, own: nat, ghost was: seq<seq<nat>>, ghost colour: nat -> nat)
      requires Valid() && |was| == listheads.Length && own < |was| && Added(was, done, colour)
      requires forall k :: 0 <= k < |run| ==> colour(run[k]) == own
      modifies `totalAvailable, `totalAvailablePages, listheads
      ensures Added(was, done + run, colour)
      ensures totalAvailable == old(totalAvailable) + |run| && totalAvailablePages == old(totalAvailablePages) + |run|
    {
      InsertSection(own, run);
      forall c | 0 <= c < |was|
        ensures multiset(listheads[c]) == multiset(was[c]) + multiset(OfColour(done + run, colour, c))
      {
        OfColourConcat(done, run, colour, c);
        OfColourRun(run, colour, own, c);
      }
    }

    /** free_frames_add_batch and zero_list_add_batch: whatever order the array
        is in, each page goes once to the list of its own colour, and the
        counters go up by the number of pages. */
    method AddBatch(pages: array<nat>)
      requires Valid() && pages as object != listheads && pages.Length > 0
      modifies this, listheads, pages
      ensures Added(old(listheads[..]), old(pages[..]), Colouring(listheads.Length))
      ensures totalAvailable == old(totalAvailable) + pages.Length
      ensures totalAvailablePages == old(totalAvailablePages) + pages.Length
    {
      ghost var was, unsorted := listheads[..], pages[..];
      Sort(pages);
      AddSorted(pages);
      forall c | 0 <= c < |was|
        ensures multiset(listheads[c]) == multiset(was[c]) + multiset(OfColour(unsorted, Colouring(|was|), c))
      {
        OfColourPermuted(pages[..], unsorted, Colouring(|was|), c);
      }
    }

    method AddSorted(pages: array<nat>)
      requires Valid() && pages as object != listheads && pages.Length > 0
      modifies `totalAvailable, `totalAvailablePages, listheads
      ensures Added(old(listheads[..]), pages[..], Colouring(listheads.Length))
      ensures totalAvailable == old(totalAvailable) + pages.Length
      ensures totalAvailablePages == old(totalAvailablePages) + pages.Length
    {
      ghost var was := listheads[..];
      ghost var colouring := Colouring(|was|);
      var first := 0;
      var colour := pages[0] % listheads.Length;
      assert pages[..0] == [];
      for i := 0 to pages.Length
        invariant 0 <= first < pages.Length && first <= i && 0 <= colour < |was|
        invariant Added(was, pages[..first], colouring)
        invariant forall k :: first <= k < i || k == first ==> colouring(pages[k]) == colour
        invariant totalAvailable == old(totalAvailable) + first
                  && totalAvailablePages == old(totalAvailablePages) + first
      {
        if pages[i] % listheads.Length != colour {
          AddRun(pages[..first], pages[first..i], colour, was, colouring);
          assert pages[..i] == pages[..first] + pages[first..i];
          first, colour := i, pages[i] % listheads.Length;
        }
      }
      AddRun(pages[..first], pages[first..], colour, was, colouring);
      assert pages[..] == pages[..first] + pages[first..];
    }
  }
}
