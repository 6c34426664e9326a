/**
 * The demo page's slideshow (client/src/pages/Demo.tsx).
 *
 * The page cycles through a fixed table of five slides. Its state is the pair
 * (currentSlide, itemIndex); a timer fires once per state and does exactly one
 * of three things: reveal one more item of the current slide, move on to the
 * next slide, or (on the last slide) return to the first one. The timer delay
 * is modelled as a value that each step returns, not as wall-clock time.
 */
module Demo {

  // ---------------------------------------------------------------------------
  // The slide table
  // ---------------------------------------------------------------------------

  /**
   * One card of the "How It Works" slide: its label and description (its icon
   * is not modelled). The field is `stepLabel` because `label` is a Dafny keyword.
   */
  datatype ProcessStep = ProcessStep(stepLabel: string, desc: string)

  /** One card of the "Our Work" slide (the logo image is not modelled). */
  datatype ProjectCard = ProjectCard(name: string, logoClass: string)

  /** A slide, one constructor per value of the source's `type` field. */
  datatype Slide =
    | Intro(id: nat, title: string, subtitle: string)
    | Services(id: nat, title: string, items: seq<string>)
    | Process(id: nat, title: string, steps: seq<ProcessStep>)
    | Projects(id: nat, title: string, projects: seq<ProjectCard>)
    | Cta(id: nat, title: string, subtitle: string, tagline: string)

  const Slides: seq<Slide> := [
    Intro(1, "BlastProjects", "We Build Real Apps for Real Businesses"),
    Services(2, "What We Build",
      ["Custom Mobile Apps", "Professional Websites", "Booking Systems", "Automations & Tools"]),
    Process(3, "How It Works", [
      ProcessStep("Consult", "Free discovery call"),
      ProcessStep("Scope", "Define your project"),
      ProcessStep("Quote", "Transparent pricing"),
      ProcessStep("Build", "We bring it to life")]),
    Projects(4, "Our Work", [
      ProjectCard("SnapTagSync", "max-h-14"),
      ProjectCard("Roxy's Beauty Lab", "max-h-32"),
      ProjectCard("Vibez", "max-h-14")]),
    Cta(5, "Ready to Build?", "Book Your Free Consultation", "Let's Blast Off")
  ]

  /** Timer delays, in milliseconds. */
  const RevealDelay: nat := 600
  const AdvanceDelay: nat := 2500
  const WrapDelay: nat := 4000

  /** How many items a slide reveals one by one: the length of its list, 0 for the others. */
  function ItemCount(slide: Slide): (n: nat)
    ensures slide.Intro? || slide.Cta? ==> n == 0
    ensures n > 0 ==> slide.Services? || slide.Process? || slide.Projects?
  {
    match slide
    case Services(_, _, items) => |items|
    case Process(_, _, steps) => |steps|
    case Projects(_, _, projects) => |projects|
    case Intro(_, _, _) => 0
    case Cta(_, _, _, _) => 0
  }

  /** The item count of every slide of a table, in table order. */
  function ItemCounts(slides: seq<Slide>): (counts: seq<nat>)
    ensures |counts| == |slides|
  {
    seq(|slides|, k requires 0 <= k < |slides| => ItemCount(slides[k]))
  }

  /** The page's table: the three list slides reveal 4, 4 and 3 items, intro and CTA none. */
  lemma SlideCounts()
    ensures ItemCounts(Slides) == [0, 4, 4, 3, 0]
  {
  }

  // ---------------------------------------------------------------------------
  // The transition system, over the item counts of any non-empty slide table
  // ---------------------------------------------------------------------------

  datatype State = State(currentSlide: nat, itemIndex: nat)

  /** The state the page starts in: the first slide, nothing revealed. */
  const Start: State := State(0, 0)

  /** What one firing of the timer does: how long it waited and the state it leaves. */
  datatype Tick = Tick(delayMs: nat, next: State)

  /** The invariant of the slideshow: a slide of the table, at most all its items revealed. */
  predicate Valid(counts: seq<nat>, st: State)
  {
    st.currentSlide < |counts| && st.itemIndex <= counts[st.currentSlide]
  }

  /**
   * One firing of the effect's timer. The source indexes the slide table with
   * `currentSlide`, so it must be a slide of the table; any itemIndex at or
   * above the count takes the "all revealed" branch, as the source's `else` does.
   */
  function Next(counts: seq<nat>, st: State): (t: Tick)
    requires st.currentSlide < |counts|
    ensures t.next.currentSlide < |counts|
    ensures Valid(counts, st) ==> Valid(counts, t.next)
  {
    if st.itemIndex < counts[st.currentSlide] then
      Tick(RevealDelay, State(st.currentSlide, st.itemIndex + 1))
    else if st.currentSlide < |counts| - 1 then
      Tick(AdvanceDelay, State(st.currentSlide + 1, 0))
    else
      Tick(AdvanceDelay + WrapDelay, Start)
  }

  lemma NextReveals(counts: seq<nat>, st: State)
    requires Valid(counts, st) && st.itemIndex < counts[st.currentSlide]
    ensures Next(counts, st).next == State(st.currentSlide, st.itemIndex + 1)
    ensures Next(counts, st).delayMs == 600
  {
  }

  lemma NextAdvances(counts: seq<nat>, st: State)
    requires Valid(counts, st) && st.itemIndex == counts[st.currentSlide]
    requires st.currentSlide < |counts| - 1
    ensures Next(counts, st).next == State(st.currentSlide + 1, 0)
    ensures Next(counts, st).delayMs == 2500
  {
  }

  lemma NextWraps(counts: seq<nat>, st: State)
    requires Valid(counts, st) && st.itemIndex == counts[st.currentSlide]
    requires st.currentSlide == |counts| - 1
    ensures Next(counts, st).next == Start
    ensures Next(counts, st).delayMs == 2500 + 4000
  {
  }

  /**
   * Every step changes the state, so the effect, which depends on both
   * hooks, runs again and schedules the next firing. The exception is a table
   * of one slide without items, where the wrap leaves `(0, 0)` as it was.
   */
  lemma NextChangesState(counts: seq<nat>, st: State)
    requires Valid(counts, st)
    requires |counts| > 1 || counts[0] > 0
    ensures Next(counts, st).next != st
  {
  }

  /** On the page's own table every timer firing changes the state. */
  lemma DemoStepChangesState(st: State)
    requires Valid(ItemCounts(Slides), st)
    ensures Next(ItemCounts(Slides), st).next != st
  {
  }

  /** `n` firings of the timer in a row: the total time waited and the final state. */
  function Run(counts: seq<nat>, st: State, n: nat): (r: Tick)
    requires st.currentSlide < |counts|
    ensures r.next.currentSlide < |counts|
    ensures Valid(counts, st) ==> Valid(counts, r.next)
    decreases n
  {
    if n == 0 then Tick(0, st)
    else
      var t := Next(counts, st);
      var rest := Run(counts, t.next, n - 1);
      Tick(t.delayMs + rest.delayMs, rest.next)
  }

  /** Running `a` steps and then `b` more is running `a + b` steps. */
  lemma {:induction false} RunAdd(counts: seq<nat>, st: State, a: nat, b: nat)
    requires st.currentSlide < |counts|
    ensures Run(counts, st, a + b).next == Run(counts, Run(counts, st, a).next, b).next
    ensures Run(counts, st, a + b).delayMs
            == Run(counts, st, a).delayMs + Run(counts, Run(counts, st, a).next, b).delayMs
    decreases a
  {
    if a > 0 {
      RunAdd(counts, Next(counts, st).next, a - 1, b);
    }
  }

  /** Entering slide `k`, the first `j` steps reveal its first `j` items, 600 ms apart. */
  lemma {:induction false} RevealPrefix(counts: seq<nat>, k: nat, j: nat)
    requires k < |counts| && j <= counts[k]
    ensures Run(counts, State(k, 0), j) == Tick(RevealDelay * j, State(k, j))
    decreases j
  {
    if j > 0 {
      RevealPrefix(counts, k, j - 1);
      RunAdd(counts, State(k, 0), j - 1, 1);
    }
  }

  /** Steps spent on slide `k`: one per item, then one to leave the slide. */
  function StepsOn(counts: seq<nat>, k: nat): nat
    requires k < |counts|
  {
    counts[k] + 1
  }

  /** Steps from the start until slide `k` is entered. */
  function StepsBefore(counts: seq<nat>, k: nat): nat
    requires k <= |counts|
  {
    if k == 0 then 0 else StepsBefore(counts, k - 1) + StepsOn(counts, k - 1)
  }

  /** Time spent on slide `k`, from entering it to entering the one after it. */
  function TimeOn(counts: seq<nat>, k: nat): nat
    requires k < |counts|
  {
    RevealDelay * counts[k] + AdvanceDelay + (if k == |counts| - 1 then WrapDelay else 0)
  }

  /** Time from the start until slide `k` is entered. */
  function TimeBefore(counts: seq<nat>, k: nat): nat
    requires k <= |counts|
  {
    if k == 0 then 0 else TimeBefore(counts, k - 1) + TimeOn(counts, k - 1)
  }

  /** Entering slide `k` and running its steps leads to the next slide, or back to the start. */
  lemma SlideRun(counts: seq<nat>, k: nat)
    requires k < |counts|
    ensures Run(counts, State(k, 0), StepsOn(counts, k)).next
            == if k < |counts| - 1 then State(k + 1, 0) else Start
    ensures Run(counts, State(k, 0), StepsOn(counts, k)).delayMs == TimeOn(counts, k)
  {
    RevealPrefix(counts, k, counts[k]);
    RunAdd(counts, State(k, 0), counts[k], 1);
  }

  /** After `StepsBefore(k)` steps from the start, the page has just entered slide `k`. */
  lemma {:induction false} EntersSlide(counts: seq<nat>, k: nat)
    requires k < |counts|
    ensures Run(counts, Start, StepsBefore(counts, k)) == Tick(TimeBefore(counts, k), State(k, 0))
  {
    if k > 0 {
      var a, b := StepsBefore(counts, k - 1), StepsOn(counts, k - 1);
      EntersSlide(counts, k - 1);
      RunAdd(counts, Start, a, b);
      SlideRun(counts, k - 1);
    }
  }

  /**
   * The whole cycle, slide by slide: from the start, slide `k` is shown with
   * `j` items revealed exactly `StepsBefore(k) + j` steps later, for every
   * slide in table order and every item count up to the slide's.
   */
  lemma CycleVisits(counts: seq<nat>, k: nat, j: nat)
    requires k < |counts| && j <= counts[k]
    ensures Run(counts, Start, StepsBefore(counts, k) + j)
            == Tick(TimeBefore(counts, k) + RevealDelay * j, State(k, j))
  {
    EntersSlide(counts, k);
    RunAdd(counts, Start, StepsBefore(counts, k), j);
    RevealPrefix(counts, k, j);
  }

  /** After the last slide's steps the page is back at the start. */
  lemma CycleReturns(counts: seq<nat>)
    requires |counts| > 0
    ensures Run(counts, Start, StepsBefore(counts, |counts|)) == Tick(TimeBefore(counts, |counts|), Start)
  {
    var last := |counts| - 1;
    EntersSlide(counts, last);
    RunAdd(counts, Start, StepsBefore(counts, last), StepsOn(counts, last));
    SlideRun(counts, last);
  }

  /**
   * For the page's own table, one full cycle is 16 steps and 23.1 seconds
   * (the wrap's two nested timers count as one step).
   */
  lemma DemoCycle()
    ensures Run(ItemCounts(Slides), Start, 16) == Tick(23100, Start)
  {
    SlideCounts();
    CycleReturns([0, 4, 4, 3, 0]);
    CycleLength();
  }

  lemma CycleLength()
    ensures StepsBefore([0, 4, 4, 3, 0], 5) == 16 && TimeBefore([0, 4, 4, 3, 0], 5) == 23100
  {
  }

  // ---------------------------------------------------------------------------
  // What the page renders from the state
  // ---------------------------------------------------------------------------

  /** How many entries of `s` are true. */
  function CountTrue(s: seq<bool>): nat
  {
    if s == [] then 0 else CountTrue(s[..|s| - 1]) + (if s[|s| - 1] then 1 else 0)
  }

  /** Which items of the current slide are animated as visible: item i iff i < itemIndex. */
  function RevealedItems(counts: seq<nat>, st: State): (shown: seq<bool>)
    requires st.currentSlide < |counts|
    ensures |shown| == counts[st.currentSlide]
  {
    seq(counts[st.currentSlide], i => i < st.itemIndex)
  }

  /** Which progress dots are highlighted: dot i iff i is the current slide. */
  function ActiveDots(counts: seq<nat>, st: State): (dots: seq<bool>)
    ensures |dots| == |counts|
  {
    seq(|counts|, i => i == st.currentSlide)
  }

  lemma {:induction false} CountTrueBelow(n: nat, m: nat)
    ensures CountTrue(seq(n, i => i < m)) == if m < n then m else n
  {
    if n > 0 {
      var s := seq(n, i => i < m);
      assert s[..n - 1] == seq(n - 1, i => i < m);
      CountTrueBelow(n - 1, m);
    }
  }

  lemma {:induction false} CountTrueAt(n: nat, k: nat)
    ensures CountTrue(seq(n, i => i == k)) == if k < n then 1 else 0
  {
    if n > 0 {
      var s := seq(n, i => i == k);
      assert s[..n - 1] == seq(n - 1, i => i == k);
      CountTrueAt(n - 1, k);
    }
  }

  /** In a valid state, exactly `itemIndex` items are shown, and they are the first ones. */
  lemma RevealedCount(counts: seq<nat>, st: State)
    requires Valid(counts, st)
    ensures CountTrue(RevealedItems(counts, st)) == st.itemIndex
    ensures forall i, j :: 0 <= i < j < counts[st.currentSlide] && RevealedItems(counts, st)[j]
              ==> RevealedItems(counts, st)[i]
  {
    CountTrueBelow(counts[st.currentSlide], st.itemIndex);
  }

  /** A reveal step shows exactly one more item, the first hidden one, and hides none. */
  lemma RevealShowsNextItem(counts: seq<nat>, st: State)
    requires Valid(counts, st) && st.itemIndex < counts[st.currentSlide]
    ensures !RevealedItems(counts, st)[st.itemIndex]
    ensures RevealedItems(counts, Next(counts, st).next) == RevealedItems(counts, st)[st.itemIndex := true]
  {
  }

  /** Exactly one progress dot is active, the one of the current slide. */
  lemma ExactlyOneDot(counts: seq<nat>, st: State)
    requires Valid(counts, st)
    ensures ActiveDots(counts, st)[st.currentSlide]
    ensures CountTrue(ActiveDots(counts, st)) == 1
  {
    CountTrueAt(|counts|, st.currentSlide);
  }

  // ---------------------------------------------------------------------------
  // The component's state, updated one timer firing at a time
  // ---------------------------------------------------------------------------

  /** The two state hooks of the Demo component. */
  class Slideshow {
    var currentSlide: nat
    var itemIndex: nat

    function Current(): State
      reads this
    {
      State(currentSlide, itemIndex)
    }

    /** Both hooks start at 0. */
    constructor ()
      ensures Current() == Start && Valid(ItemCounts(Slides), Current())
    {
      currentSlide, itemIndex := 0, 0;
    }

    /**
     * The effect's body followed by its timer callback: derive the item count
     * of the current slide, then reveal, advance or wrap. Returns the time the
     * timer waited (both nested timeouts when wrapping).
     */
    method Step() returns (delayMs: nat)
      requires currentSlide < |Slides|
      modifies this
      ensures Tick(delayMs, Current()) == Next(ItemCounts(Slides), old(Current()))
    {
      var slide := Slides[currentSlide];
      var itemCount := 0;
      if slide.Services? { itemCount := |slide.items|; }
      if slide.Process? { itemCount := |slide.steps|; }
      if slide.Projects? { itemCount := |slide.projects|; }

      if itemIndex < itemCount {
        delayMs := RevealDelay;
        itemIndex := itemIndex + 1;
      } else {
        delayMs := AdvanceDelay;
        if currentSlide < |Slides| - 1 {
          currentSlide := currentSlide + 1;
          itemIndex := 0;
        } else {
          delayMs := delayMs + WrapDelay;
          currentSlide := 0;
          itemIndex := 0;
        }
      }
    }

    /**
     * Lets the timer fire `n` times in a row: each state change re-runs the
     * effect, which schedules the next firing. Returns the total time waited.
     */
    method Play(n: nat) returns (elapsedMs: nat)
      requires currentSlide < |Slides|
      modifies this
      ensures Tick(elapsedMs, Current()) == Run(ItemCounts(Slides), old(Current()), n)
    {
      ghost var initial := Current();
      elapsedMs := 0;
      var i := 0;
      while i < n
        invariant i <= n
        invariant currentSlide < |Slides|
        invariant Tick(elapsedMs, Current()) == Run(ItemCounts(Slides), initial, i)
      {
        var d := Step();
        RunAdd(ItemCounts(Slides), initial, i, 1);
        elapsedMs := elapsedMs + d;
        i := i + 1;
      }
    }
  }
}
