/** The quote selection of components/rpg/quotes.ts: the game's list with
    three more entries, a uniform pick and a pick within one category that
    falls back to the uniform pick. The quote type and the list operations are
    those of the game module. */
module RpgQuotes {
  import opened Quotes

  const All: seq<Quotes.Quote> := [
    Quote("The future is already here — it's just not evenly distributed.", "William Gibson", Cyber),
    Quote("The street finds its own uses for things.", "William Gibson", Cyber),
    Quote("Information wants to be free.", "Stewart Brand", Cyber),
    Quote("We are stuck with technology when what we really want is just stuff that works.", "Douglas Adams", Tech),
    Quote("The best way to predict the future is to invent it.", "Alan Kay", Future),
    Quote("Any sufficiently advanced technology is indistinguishable from magic.", "Arthur C. Clarke", Tech),
    Quote("First, solve the problem. Then, write the code.", "John Johnson", Code),
    Quote("Code is like humor. When you have to explain it, it's bad.", "Cory House", Code),
    Quote("Programs must be written for people to read, and only incidentally for machines to execute.", "Harold Abelson", Code),
    Quote("The most disastrous thing that you can ever learn is your first programming language.", "Alan Kay", Code),
    Quote("Walking on water and developing software from a specification are easy if both are frozen.", "Edward V. Berard", Code),
    Quote("Make it work, make it right, make it fast.", "Kent Beck", Code),
    Quote("The only way to do great work is to love what you do.", "Steve Jobs", Wisdom),
    Quote("Innovation distinguishes between a leader and a follower.", "Steve Jobs", Wisdom),
    Quote("Technology is best when it brings people together.", "Matt Mullenweg", Tech),
    Quote("The advance of technology is based on making it fit in so that you don't really even notice it.", "Bill Gates", Tech),
    Quote("We are changing the world with technology.", "Bill Gates", Future),
    Quote("The computer was born to solve problems that did not exist before.", "Bill Gates", Tech),
    Quote("I think it's fair to say that personal computers have become the most empowering tool we've ever created.", "Bill Gates", Tech),
    Quote("The Internet is becoming the town square for the global village of tomorrow.", "Bill Gates", Cyber),
    Quote("We're entering a new world in which data may be more important than software.", "Tim O'Reilly", Future),
    Quote("Software is eating the world.", "Marc Andreessen", Tech),
    Quote("Every company is a technology company.", "Gary Vaynerchuk", Future),
    Quote("The real danger is not that computers will begin to think like men, but that men will begin to think like computers.", "Sydney J. Harris", Wisdom),
    Quote("Walk to the light. Press E. Pretend I'm not excited.", "Hardcade System", Cyber),
    Quote("In the neon grid, every door is a portal, every choice a commit.", "Hardcade Archives", Cyber),
    Quote("Your pages are portals. Your navigation is legendary.", "Hardcade Protocol", Cyber),
    Quote("Third person or isometric, the view is always forward.", "CameraRig.tsx", Code),
    Quote("WASD for motion. E for destiny. T for perspective.", "Input Handler", Code),
    Quote("It boots, it routes, it feels like Night City without the bugs.", "Scene.tsx", Cyber),
    Quote("Keep SSR out of the blast radius.", "Next.js Hygiene", Code),
    Quote("The canvas is a portal. The player is a promise.", "Fiber Runtime", Tech)
  ]

  /** `getRandomQuote`. */
  function RandomQuote(r: real): (q: Quotes.Quote)
    requires Quotes.IsRandom(r)
    ensures q in All
  {
    Quotes.PickAt(All, r)
  }

  /** `getQuoteByCategory`: a second draw `r2` is used only when no entry
      has the category. */
  function QuoteByCategory(c: Quotes.Category, r1: real, r2: real): (q: Quotes.Quote)
    requires Quotes.IsRandom(r1) && Quotes.IsRandom(r2)
    ensures q in All
    ensures (exists i :: 0 <= i < |All| && All[i].category == c) ==> q.category == c
    ensures (forall i :: 0 <= i < |All| ==> All[i].category != c) ==> q == RandomQuote(r2)
  {
    Quotes.ByCategoryIn(All, c, r1, r2)
  }

  /** The list starts with the game's list, in the same order. */
  lemma ExtendsGameList()
    ensures |All| == |Quotes.All| + 3
    ensures All[..|Quotes.All|] == Quotes.All
  {
  }

  /** Every category has an entry, so the by-category pick always matches. */
  lemma EveryCategoryPresent(c: Quotes.Category, r1: real, r2: real)
    requires Quotes.IsRandom(r1) && Quotes.IsRandom(r2)
    ensures FirstOf(c) < |All| && All[FirstOf(c)].category == c
    ensures Filter(All, c) != []
    ensures QuoteByCategory(c, r1, r2).category == c
  {
    var i := FirstOf(c);
    assert i < |All| && All[i].category == c;
    PresentMeansMatched(All, c, i, r1, r2);
  }
}
