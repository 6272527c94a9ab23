/** The quote selection of components/game/quotes.ts: a fixed list, a uniform
    pick, a pick within one category that falls back to the whole list, a
    fixed quote per destination, and a rotation that never shows the same
    text twice in a row. Each `Math.random()` value is a parameter `r` in
    [0, 1); the index it gives is `Math.floor(r * length)`. The list
    operations are shared with components/rpg/quotes.ts. */
module Quotes {
  import opened Common
  import NavMarker

  datatype Category = Cyber | Tech | Future | Wisdom | Code

  datatype Quote = Quote(text: string, author: string, category: Category)

  const All: seq<Quote> := [
    Quote("The future is already here — it's just not evenly distributed.", "William Gibson", Cyber),
    Quote("The street finds its own uses for things.", "William Gibson", Cyber),
    Quote("Information wants to be free.", "Stewart Brand", Cyber),
    Quote("We are stuck with technology when what we really want is just stuff that works.", "Douglas Adams", Tech),
    Quote("The best way to predict the future is to invent it.", "Alan Kay", Future),
    Quote("Any sufficiently advanced technology is indistinguishable from magic.", "Arthur C. Clarke", Tech),
    Quote("First, solve the problem. Then, write the code.", "John Johnson", Code),
    Quote("Code is like humor. When you have to explain it, it's bad.", "Cory House", Code),
    Quote("Programs must be written for people to read, and only incidentally for machines to execute.", "Harold Abelson", Code),
    Quote("The most disastrous thing that you can ever learn is your first programming language.", "Alan Kay", Code),
    Quote("Walking on water and developing software from a specification are easy if both are frozen.", "Edward V. Berard", Code),
    Quote("Make it work, make it right, make it fast.", "Kent Beck", Code),
    Quote("The only way to do great work is to love what you do.", "Steve Jobs", Wisdom),
    Quote("Innovation distinguishes between a leader and a follower.", "Steve Jobs", Wisdom),
    Quote("Technology is best when it brings people together.", "Matt Mullenweg", Tech),
    Quote("The advance of technology is based on making it fit in so that you don't really even notice it.", "Bill Gates", Tech),
    Quote("We are changing the world with technology.", "Bill Gates", Future),
    Quote("The computer was born to solve problems that did not exist before.", "Bill Gates", Tech),
    Quote("I think it's fair to say that personal computers have become the most empowering tool we've ever created.", "Bill Gates", Tech),
    Quote("The Internet is becoming the town square for the global village of tomorrow.", "Bill Gates", Cyber),
    Quote("We're entering a new world in which data may be more important than software.", "Tim O'Reilly", Future),
    Quote("Software is eating the world.", "Marc Andreessen", Tech),
    Quote("Every company is a technology company.", "Gary Vaynerchuk", Future),
    Quote("The real danger is not that computers will begin to think like men, but that men will begin to think like computers.", "Sydney J. Harris", Wisdom),
    Quote("Walk to the light. Press E. Pretend I'm not excited.", "Hardcade System", Cyber),
    Quote("In the neon grid, every door is a portal, every choice a commit.", "Hardcade Archives", Cyber),
    Quote("Your pages are portals. Your navigation is legendary.", "Hardcade Protocol", Cyber),
    Quote("Third person or isometric, the view is always forward.", "CameraRig.tsx", Code),
    Quote("WASD for motion. E for destiny. T for perspective.", "Input Handler", Code)
  ]

  /** A value `Math.random()` can return. */
  predicate IsRandom(r: real) {
    0.0 <= r < 1.0
  }

  /** `Math.floor(r * n)`: always a valid index into a non-empty list. */
  function Index(r: real, n: nat): (i: nat)
    requires IsRandom(r) && n > 0
    ensures i < n
    ensures i as real <= r * n as real < i as real + 1.0
  {
    ScaledBelow(r, n as real);
    (r * n as real).Floor
  }

  lemma ScaledBelow(r: real, m: real)
    requires 0.0 <= r < 1.0 && m > 0.0
    ensures 0.0 <= r * m < m
  {
    assert m - r * m == (1.0 - r) * m;
  }

  /** Every index is drawn by some random value, namely i/n. */
  lemma IndexReachable(n: nat, i: nat)
    requires i < n
    ensures IsRandom(i as real / n as real)
    ensures Index(i as real / n as real, n) == i
  {
    var r := i as real / n as real;
    assert r * n as real == i as real;
  }

  /** `list[Math.floor(Math.random() * list.length)]` on a non-empty list. */
  function PickAt(qs: seq<Quote>, r: real): (q: Quote)
    requires |qs| > 0 && IsRandom(r)
    ensures q in qs
  {
    qs[Index(r, |qs|)]
  }

  /** No quote of a list is out of reach of the pick. */
  lemma EveryQuoteReachable(qs: seq<Quote>, i: nat)
    requires i < |qs|
    ensures exists r :: IsRandom(r) && PickAt(qs, r) == qs[i]
  {
    IndexReachable(|qs|, i);
    var r := i as real / |qs| as real;
    assert PickAt(qs, r) == qs[i];
  }

  /** `list.filter((q) => q.category === c)`: the entries of category `c`,
      in list order. */
  function Filter(qs: seq<Quote>, c: Category): (r: seq<Quote>)
    ensures |r| <= |qs|
    ensures forall i :: 0 <= i < |r| ==> r[i].category == c
    ensures forall q :: q in r <==> q in qs && q.category == c
    ensures r == [] <==> forall i :: 0 <= i < |qs| ==> qs[i].category != c
    decreases |qs|
  {
    if qs == [] then []
    else
      var rest := Filter(qs[1..], c);
      assert forall q :: q in qs <==> q == qs[0] || q in qs[1..];
      if qs[0].category == c then [qs[0]] + rest else rest
  }

  lemma Associative(x: seq<Quote>, y: seq<Quote>, z: seq<Quote>)
    ensures x + (y + z) == (x + y) + z
  {
  }

  /** Filtering a list that starts with `x` keeps `x` in front exactly when
      it has the category. */
  lemma FilterCons(x: Quote, rest: seq<Quote>, c: Category)
    ensures Filter([x] + rest, c) == (if x.category == c then [x] else []) + Filter(rest, c)
  {
    assert ([x] + rest)[0] == x;
    assert ([x] + rest)[1..] == rest;
  }

  /** Filtering keeps list order: filtering a concatenation filters each
      part and concatenates the results. */
  lemma {:induction false} FilterAppend(a: seq<Quote>, b: seq<Quote>, c: Category)
    ensures Filter(a + b, c) == Filter(a, c) + Filter(b, c)
    decreases |a|
  {
    if a == [] {
      assert a + b == b;
    } else {
      var head := if a[0].category == c then [a[0]] else [];
      assert a == [a[0]] + a[1..];
      assert a + b == [a[0]] + (a[1..] + b);
      FilterCons(a[0], a[1..] + b, c);
      FilterCons(a[0], a[1..], c);
      FilterAppend(a[1..], b, c);
      Associative(head, Filter(a[1..], c), Filter(b, c));
    }
  }

  /** `filtered[Math.floor(r1 * filtered.length)] || fallback`: the element at
      the drawn index when the filtered list is non-empty (a quote is always
      truthy), otherwise a second draw `r2` from the whole list. */
  function ByCategoryIn(qs: seq<Quote>, c: Category, r1: real, r2: real): (q: Quote)
    requires |qs| > 0 && IsRandom(r1) && IsRandom(r2)
    ensures q in qs
    ensures (exists i :: 0 <= i < |qs| && qs[i].category == c) ==> q.category == c
    ensures (forall i :: 0 <= i < |qs| ==> qs[i].category != c) ==> q == PickAt(qs, r2)
  {
    var filtered := Filter(qs, c);
    if filtered == [] then PickAt(qs, r2) else PickAt(filtered, r1)
  }

  /** `getRandomQuote`. */
  function RandomQuote(r: real): (q: Quote)
    requires IsRandom(r)
    ensures q in All
  {
    PickAt(All, r)
  }

  /** `getQuoteByCategory`. */
  function QuoteByCategory(c: Category, r1: real, r2: real): (q: Quote)
    requires IsRandom(r1) && IsRandom(r2)
    ensures q in All
    ensures (exists i :: 0 <= i < |All| && All[i].category == c) ==> q.category == c
  {
    ByCategoryIn(All, c, r1, r2)
  }

  /** A category with an entry in the list is never answered by the fallback. */
  lemma PresentMeansMatched(qs: seq<Quote>, c: Category, i: nat, r1: real, r2: real)
    requires i < |qs| && qs[i].category == c && IsRandom(r1) && IsRandom(r2)
    ensures Filter(qs, c) != []
    ensures ByCategoryIn(qs, c, r1, r2).category == c
  {
  }

  /** Where each category first appears in the game's list. */
  function FirstOf(c: Category): nat {
    match c
    case Cyber => 0
    case Tech => 3
    case Future => 4
    case Wisdom => 12
    case Code => 6
  }

  /** Every category has an entry, so the by-category pick always matches and
      its fallback draw is never taken. */
  lemma EveryCategoryPresent(c: Category, r1: real, r2: real)
    requires IsRandom(r1) && IsRandom(r2)
    ensures FirstOf(c) < |All| && All[FirstOf(c)].category == c
    ensures Filter(All, c) != []
    ensures QuoteByCategory(c, r1, r2).category == c
  {
    var i := FirstOf(c);
    assert i < |All| && All[i].category == c;
    PresentMeansMatched(All, c, i, r1, r2);
  }

  /** The fixed quote per destination label. */
  const DestinationQuotes: map<string, Quote> := map[
    "Main" := Quote("Every journey begins with a single step into the void.", "System Core", Cyber),
    "About" := Quote("Know thyself, and you shall know the universe.", "Ancient Protocol", Wisdom),
    "Gallery" := Quote("Art is how we decorate space. Music is how we decorate time.", "Jean-Michel Basquiat", Wisdom),
    "Dashboard" := Quote("Data is the new oil, but insight is the refinery.", "Analytics Engine", Tech),
    "Contact" := Quote("Connection is why we're here. We are hardwired to connect.", "Brené Brown", Wisdom)
  ]

  /** `getQuoteForDestination`: the destination's own quote when it has one,
      otherwise a random quote from the list. */
  function QuoteForDestination(destination: string, r: real): (q: Quote)
    requires IsRandom(r)
    ensures destination in DestinationQuotes ==> q == DestinationQuotes[destination]
    ensures destination !in DestinationQuotes ==> q in All
  {
    if destination in DestinationQuotes then DestinationQuotes[destination] else RandomQuote(r)
  }

  /** Every marker of the scene has its own destination quote, whatever the
      random value. */
  lemma EveryMarkerHasQuote(i: nat, r: real)
    requires i < |NavMarker.Beacons| && IsRandom(r)
    ensures NavMarker.Beacons[i].name in DestinationQuotes
    ensures QuoteForDestination(NavMarker.Beacons[i].name, r) == DestinationQuotes[NavMarker.Beacons[i].name]
  {
  }

  /** The quote one pass of the rotation's inner loop settles on, drawing
      from `qs`: the first drawn quote whose text differs from the last one
      shown (any first draw when nothing was shown yet), or `None` when every
      supplied draw repeats it, or none was supplied. */
  function FirstFresh(qs: seq<Quote>, last: Option<Quote>, draws: seq<real>): (q: Option<Quote>)
    requires |qs| > 0 && forall i :: 0 <= i < |draws| ==> IsRandom(draws[i])
    ensures q.Some? ==> q.value in qs
    ensures q.Some? && last.Some? ==> q.value.text != last.value.text
    ensures q.None? <==> forall i :: 0 <= i < |draws| ==> last.Some? && PickAt(qs, draws[i]).text == last.value.text
    ensures q.Some? ==> exists j :: (0 <= j < |draws| && q.value == PickAt(qs, draws[j])
      && forall i :: 0 <= i < j ==> last.Some? && PickAt(qs, draws[i]).text == last.value.text)
    decreases |draws|
  {
    if draws == [] then None
    else
      var quote := PickAt(qs, draws[0]);
      if last.None? || quote.text != last.value.text then
        assert quote == PickAt(qs, draws[0]);
        Some(quote)
      else
        var rest := FirstFresh(qs, last, draws[1..]);
        assert forall i :: 1 <= i < |draws| ==> draws[1..][i - 1] == draws[i];
        assert rest.Some? ==> exists j :: (0 <= j < |draws| && rest.value == PickAt(qs, draws[j])
          && forall i :: 0 <= i < j ==> last.Some? && PickAt(qs, draws[i]).text == last.value.text)
        by {
          if rest.Some? {
            var j :| 0 <= j < |draws[1..]| && rest.value == PickAt(qs, draws[1..][j])
              && forall i :: 0 <= i < j ==> last.Some? && PickAt(qs, draws[1..][i]).text == last.value.text;
            assert forall i :: 0 <= i < j + 1 ==> last.Some? && PickAt(qs, draws[i]).text == last.value.text;
          }
        }
        rest
  }

  /** The inner loop of `quoteRotation`: draw, and draw again while the text
      equals the last one shown. `draws` are the successive random values;
      `None` means they ran out before a fresh quote came up. */
  method PickFresh(last: Option<Quote>, draws: seq<real>) returns (q: Option<Quote>)
    requires forall i :: 0 <= i < |draws| ==> IsRandom(draws[i])
    ensures q == FirstFresh(All, last, draws)
  {
    if |draws| == 0 {
      return None;
    }
    var quote := RandomQuote(draws[0]);
    var i := 1;
    while last.Some? && quote.text == last.value.text
      invariant 1 <= i <= |draws|
      invariant quote == PickAt(All, draws[i - 1])
      invariant FirstFresh(All, last, draws) == FirstFresh(All, last, draws[i - 1..])
      decreases |draws| - i
    {
      assert draws[i - 1..][1..] == draws[i..];
      if i == |draws| {
        return None;
      }
      quote := RandomQuote(draws[i]);
      i := i + 1;
    }
    assert draws[i - 1..][0] == draws[i - 1];
    q := Some(quote);
  }

  /** The `quoteRotation` generator with its `lastQuote` state. */
  class QuoteRotation {
    var lastQuote: Option<Quote>

    constructor ()
      ensures lastQuote == None
    {
      lastQuote := None;
    }

    /** One `yield`: the fresh quote, which becomes the last one shown. */
    method Next(draws: seq<real>) returns (q: Option<Quote>)
      requires forall i :: 0 <= i < |draws| ==> IsRandom(draws[i])
      modifies this
      ensures q == FirstFresh(All, old(lastQuote), draws)
      ensures q.Some? ==> lastQuote == q
      ensures q.None? ==> lastQuote == old(lastQuote)
    {
      q := PickFresh(lastQuote, draws);
      if q.Some? {
        lastQuote := q;
      }
    }
  }

  predicate AllRandom(batches: seq<seq<real>>) {
    forall j, i :: 0 <= j < |batches| && 0 <= i < |batches[j]| ==> IsRandom(batches[j][i])
  }

  lemma AllRandomTail(batches: seq<seq<real>>)
    requires AllRandom(batches) && batches != []
    ensures AllRandom(batches[1..])
    ensures forall i :: 0 <= i < |batches[0]| ==> IsRandom(batches[0][i])
  {
    forall j, i | 0 <= j < |batches[1..]| && 0 <= i < |batches[1..][j]|
      ensures IsRandom(batches[1..][j][i])
    {
      assert batches[1..][j] == batches[j + 1];
    }
  }

  /** The quotes the rotation yields from `qs` when `batches[j]` supplies the
      draws of the j-th `yield`, up to the first batch that runs out. */
  /** The quotes the loop of `quoteRotation` yields when its `k`th pass draws
      `batches[k]`, starting after `last`: one per batch, each drawn from the
      list, until a batch runs out before a fresh quote comes up (the loop
      would still be drawing); that batch is the one after the last yield. */
  function Yields(qs: seq<Quote>, last: Option<Quote>, batches: seq<seq<real>>): (ys: seq<Quote>)
    requires |qs| > 0 && AllRandom(batches)
    ensures |ys| <= |batches|
    ensures forall i :: 0 <= i < |ys| ==> ys[i] in qs
    ensures |ys| < |batches| ==>
      FirstFresh(qs, if ys == [] then last else Some(ys[|ys| - 1]), batches[|ys|]).None?
    decreases |batches|
  {
    if batches == [] then []
    else
      AllRandomTail(batches);
      match FirstFresh(qs, last, batches[0])
      case None => []
      case Some(q) =>
        var rest := Yields(qs, Some(q), batches[1..]);
        assert |rest| < |batches[1..]| ==> batches[1..][|rest|] == batches[|rest| + 1];
        assert rest != [] ==> ([q] + rest)[|rest|] == rest[|rest| - 1];
        [q] + rest
  }

  /** The rotation never yields the same text twice in a row, nor repeats
      the quote that was last shown before it started. */
  lemma {:induction false} NoConsecutiveRepeats(qs: seq<Quote>, last: Option<Quote>, batches: seq<seq<real>>)
    requires |qs| > 0 && AllRandom(batches)
    ensures var ys := Yields(qs, last, batches);
      && (forall i :: 0 <= i < |ys| ==> ys[i] in qs)
      && (forall i :: 0 <= i < |ys| - 1 ==> ys[i].text != ys[i + 1].text)
      && (last.Some? && |ys| > 0 ==> ys[0].text != last.value.text)
    decreases |batches|
  {
    if batches != [] {
      AllRandomTail(batches);
      match FirstFresh(qs, last, batches[0])
      case None =>
      case Some(q) =>
        NoConsecutiveRepeats(qs, Some(q), batches[1..]);
    }
  }

  /** A list whose first two texts differ has, for any last quote, a draw
      whose text is different. */
  lemma CanProceedIn(qs: seq<Quote>, last: Quote)
    requires |qs| >= 2 && qs[0].text != qs[1].text
    ensures exists r :: IsRandom(r) && PickAt(qs, r).text != last.text
  {
    IndexReachable(|qs|, 0);
    IndexReachable(|qs|, 1);
    var r0 := 0 as real / |qs| as real;
    var r1 := 1 as real / |qs| as real;
    if PickAt(qs, r0).text == last.text {
      assert PickAt(qs, r1).text != last.text;
    }
  }

  /** Whatever was shown last, some draw gives a different text, so the
      inner loop can always end. */
  lemma RotationCanProceed(last: Quote)
    ensures exists r :: IsRandom(r) && RandomQuote(r).text != last.text
  {
    assert |All| >= 2 && All[0].text != All[1].text;
    CanProceedIn(All, last);
    var r :| IsRandom(r) && PickAt(All, r).text != last.text;
    assert RandomQuote(r) == PickAt(All, r);
  }
}
