/**
 * The onboarding tour: a step index over four steps, with -1 meaning "closed", the stored
 * flag that marks the tour as seen, and the rectangle the tooltip is placed at. The start
 * timer and the clicks are events; which target elements are on the page is a parameter.
 */
module OnboardingTour {
  import opened Wrappers
  import opened Domain

  /** The step fields the state machine and the render read. */
  datatype TourStep = TourStep(targetId: string, title: string)

  const TourSteps: seq<TourStep> := [
    TourStep("tour-new-project", "Start Converting"),
    TourStep("tour-projects", "Your Library"),
    TourStep("tour-pricing", "Go Pro"),
    TourStep("tour-settings", "Configure AI")
  ]

  const LastStep: int := |TourSteps| - 1
  const SeenKey: string := "d2c_tour_seen"

  /**
   * The current step (-1 when closed), the stored value under the tour-seen key and
   * `targetRect`: the id of the element whose bounding rectangle was last measured, or `None`
   * while it is null.
   */
  datatype Tour = Tour(step: int, seen: Option<string>, rect: Option<string>)

  /** The tour is mounted closed, with no rectangle and whatever the local record holds. */
  function Mount(seen: Option<string>): (t: Tour)
    ensures t.step == -1 && t.seen == seen && t.rect.None?
  {
    Tour(-1, seen, None)
  }

  /** The start timer: opens the first step only when the seen flag is absent. */
  function Start(t: Tour): (r: Tour)
    ensures !Truthy(t.seen) ==> r == t.(step := 0)
    ensures Truthy(t.seen) ==> r == t
  {
    if !Truthy(t.seen) then t.(step := 0) else t
  }

  /**
   * The effect on a new step: a step in range whose target is on the page has its rectangle
   * measured; a step in range whose target is missing keeps the rectangle it had; any other
   * step clears it.
   */
  function Track(t: Tour, onPage: string -> bool): (r: Tour)
    ensures r.step == t.step && r.seen == t.seen
    ensures !(0 <= t.step <= LastStep) ==> r.rect.None?
    ensures 0 <= t.step <= LastStep && onPage(TourSteps[t.step].targetId) ==> r.rect == Some(TourSteps[t.step].targetId)
    ensures 0 <= t.step <= LastStep && !onPage(TourSteps[t.step].targetId) ==> r.rect == t.rect
  {
    if 0 <= t.step <= LastStep then
      if onPage(TourSteps[t.step].targetId) then t.(rect := Some(TourSteps[t.step].targetId)) else t
    else t.(rect := None)
  }

  /** `handleComplete`: mark the tour seen and close it; the effect then clears the rectangle. */
  function Complete(t: Tour): (r: Tour)
    ensures r.step == -1 && r.seen == Some("true") && r.rect == t.rect
  {
    t.(step := -1, seen := Some("true"))
  }

  /** `handleNext`: advance, or complete at the last step. */
  function Next(t: Tour): (r: Tour)
    ensures t.step < LastStep ==> r == t.(step := t.step + 1)
    ensures t.step >= LastStep ==> r == Complete(t)
  {
    if t.step < LastStep then t.(step := t.step + 1) else Complete(t)
  }

  /** `handleBack`: step back unless at the first step. */
  function Back(t: Tour): (r: Tour)
    ensures t.step > 0 ==> r == t.(step := t.step - 1)
    ensures t.step <= 0 ==> r == t
  {
    if t.step > 0 then t.(step := t.step - 1) else t
  }

  /** A rendered step, and the id of the element whose rectangle places its tooltip. */
  datatype Rendered = Rendered(step: TourStep, anchor: string)

  /**
   * The render: nothing while closed or while `targetRect` is null; otherwise the current
   * step, placed at whatever rectangle was last measured, which is an earlier step's when
   * this step's target is missing.
   */
  function Shown(t: Tour): (r: Option<Rendered>)
    requires InRange(t)
    ensures r.None? <==> t.step == -1 || t.rect.None?
    ensures r.Some? ==> r.value == Rendered(TourSteps[t.step], t.rect.value)
  {
    if t.step == -1 || t.rect.None? then None else Some(Rendered(TourSteps[t.step], t.rect.value))
  }

  datatype TourEvent = StartTimer | NextClick | BackClick | CloseClick

  /** The state change an event makes, before the step effect. */
  function Move(t: Tour, e: TourEvent): Tour {
    match e
    case StartTimer => Start(t)
    case NextClick => Next(t)
    case BackClick => Back(t)
    case CloseClick => Complete(t)
  }

  /** An event, followed by the step effect when the step changed (the effect depends on the step only). */
  function Apply(t: Tour, e: TourEvent, onPage: string -> bool): Tour {
    var u := Move(t, e);
    if u.step != t.step then Track(u, onPage) else u
  }

  /** The buttons and the backdrop exist only while a step is rendered. */
  predicate Clickable(t: Tour, e: TourEvent) {
    e == StartTimer || (t.step != -1 && t.rect.Some?)
  }

  function Run(t: Tour, events: seq<TourEvent>, onPage: string -> bool): Tour
    decreases |events|
  {
    if events == [] then t else Run(Apply(t, events[0], onPage), events[1..], onPage)
  }

  predicate InRange(t: Tour) {
    -1 <= t.step <= LastStep
  }

  /**
   * What the step effect keeps true: the step is in range, a closed tour has no rectangle, a
   * measured rectangle belongs to an element on the page, and a step whose target is on the
   * page has that target's rectangle.
   */
  predicate Tracked(t: Tour, onPage: string -> bool) {
    && InRange(t)
    && (t.step == -1 ==> t.rect.None?)
    && (t.rect.Some? ==> onPage(t.rect.value))
    && (t.step != -1 && onPage(TourSteps[t.step].targetId) ==> t.rect == Some(TourSteps[t.step].targetId))
  }

  /** Every event keeps the tour tracked, so the step stays within -1 .. 3 and a shown step always exists. */
  lemma {:induction false} RunKeepsTracked(t: Tour, events: seq<TourEvent>, onPage: string -> bool)
    requires Tracked(t, onPage)
    ensures Tracked(Run(t, events, onPage), onPage)
    decreases |events|
  {
    if events != [] {
      var t1 := Apply(t, events[0], onPage);
      assert Tracked(t1, onPage);
      RunKeepsTracked(t1, events[1..], onPage);
    }
  }

  /**
   * In a tracked tour, a rendered step is placed at an element on the page, and an open step
   * whose target is on the page is rendered at that target.
   */
  lemma ShownAnchor(t: Tour, onPage: string -> bool)
    requires Tracked(t, onPage)
    ensures Shown(t).Some? ==> onPage(Shown(t).value.anchor)
    ensures t.step != -1 && onPage(TourSteps[t.step].targetId) ==>
              Shown(t) == Some(Rendered(TourSteps[t.step], TourSteps[t.step].targetId))
  {
  }

  /**
   * A step whose target is missing is still rendered, at the previous step's rectangle: with
   * only the first target on the page, the timer and one Next click show the second step
   * placed at the first step's element.
   */
  lemma MissingTargetKeepsOldAnchor()
    ensures var onPage := (id: string) => id == "tour-new-project";
            var t := Run(Mount(None), [StartTimer, NextClick], onPage);
            Shown(t) == Some(Rendered(TourSteps[1], "tour-new-project"))
  {
    var onPage := (id: string) => id == "tour-new-project";
    var t0 := Mount(None);
    var t1 := Apply(t0, StartTimer, onPage);
    assert t1 == Tour(0, None, Some("tour-new-project"));
    var t2 := Apply(t1, NextClick, onPage);
    assert !onPage(TourSteps[1].targetId);
    assert t2 == Tour(1, None, Some("tour-new-project"));
    assert Run(t0, [StartTimer, NextClick], onPage) == Run(t1, [NextClick], onPage);
    assert Run(t1, [NextClick], onPage) == Run(t2, [], onPage);
  }

  /** Clicks a user can make. */
  predicate Admissible(t: Tour, events: seq<TourEvent>, onPage: string -> bool)
    decreases |events|
  {
    events == [] || (Clickable(t, events[0]) && Admissible(Apply(t, events[0], onPage), events[1..], onPage))
  }

  /** Once completed, the tour never opens again: the seen flag stops the start timer. */
  lemma {:induction false} CompletedTourStaysClosed(t: Tour, events: seq<TourEvent>, onPage: string -> bool)
    requires t.step == -1 && Truthy(t.seen) && t.rect.None?
    requires Admissible(t, events, onPage)
    ensures Run(t, events, onPage) == t
    decreases |events|
  {
    if events != [] {
      assert Apply(t, events[0], onPage) == t;
      CompletedTourStaysClosed(t, events[1..], onPage);
    }
  }

  /** From the first step, `k` Next clicks reach step `k`; one more than the last index completes the tour. */
  lemma {:induction false} NextWalksTheSteps(t: Tour, k: nat, onPage: string -> bool)
    requires t.step == 0 && k <= |TourSteps|
    ensures var r := Run(t, seq(k, i => NextClick), onPage);
            && (k <= LastStep ==> r.step == k && r.seen == t.seen)
            && (k == |TourSteps| ==> r == Tour(-1, Some("true"), None))
  {
    if k > 0 {
      NextWalksTheSteps(t, k - 1, onPage);
      var prefix := seq(k - 1, i => NextClick);
      RunAppend(t, prefix, [NextClick], onPage);
      assert seq(k, i => NextClick) == prefix + [NextClick];
    }
  }

  /** Running two event lists in a row is running their concatenation. */
  lemma {:induction false} RunAppend(t: Tour, a: seq<TourEvent>, b: seq<TourEvent>, onPage: string -> bool)
    ensures Run(t, a + b, onPage) == Run(Run(t, a, onPage), b, onPage)
    decreases |a|
  {
    if a == [] {
      assert a + b == b;
    } else {
      assert (a + b)[1..] == a[1..] + b;
      RunAppend(Apply(t, a[0], onPage), a[1..], b, onPage);
    }
  }
}
