/**
 * Where the click handler of src/main.ts puts the panel: its `left` from the
 * trigger's box and the viewport width, its `top` from the viewport height
 * and the scroll offset, and the classes that say which way it points.
 * Measurements are real numbers; the browser's doubles and the `px`
 * formatting are not modelled.
 */
module Placement {
  import opened Wrappers

  /** A `DOMRect` as `getBoundingClientRect` returns it. */
  datatype Rect = Rect(x: real, y: real, width: real, height: real)
  {
    function Left(): real { if width < 0.0 then x + width else x }
    function Right(): real { if width < 0.0 then x else x + width }
    function Top(): real { if height < 0.0 then y + height else y }
  }

  /** The distance from either side of the viewport below which the panel is shifted. */
  const EdgeMargin: real := 100.0

  /** What one activation measures: the trigger, the hidden copy of the panel and the window. */
  datatype Measurements = Measurements(
    trigger: Rect, panel: Rect, innerWidth: real, clientHeight: real, scrollY: real)

  predicate NearLeftEdge(m: Measurements)
  {
    m.trigger.Left() < EdgeMargin
  }

  predicate NearRightEdge(m: Measurements)
  {
    m.trigger.Right() > m.innerWidth - EdgeMargin
  }

  /** The panel opens below the trigger when the trigger sits in the upper half of the viewport. */
  predicate PlaceBelow(m: Measurements)
  {
    m.clientHeight / 2.0 > m.trigger.y
  }

  /**
   * How far along the panel's width the trigger's centre falls: a quarter
   * near the left edge, three quarters near the right edge (which wins when
   * both hold), the middle otherwise.
   */
  function AnchorFraction(m: Measurements): (f: real)
    ensures NearRightEdge(m) ==> f == 0.75
    ensures !NearRightEdge(m) && NearLeftEdge(m) ==> f == 0.25
    ensures !NearRightEdge(m) && !NearLeftEdge(m) ==> f == 0.5
  {
    if NearRightEdge(m) then 0.75 else if NearLeftEdge(m) then 0.25 else 0.5
  }

  function TriggerCentre(m: Measurements): real
  {
    m.trigger.Left() + m.trigger.width / 2.0
  }

  /** The panel's `left`: the trigger's centre lies at the anchor fraction of the panel's width. */
  function PanelLeft(m: Measurements): (l: real)
    ensures l + AnchorFraction(m) * m.panel.width == TriggerCentre(m)
  {
    TriggerCentre(m) - AnchorFraction(m) * m.panel.width
  }

  /**
   * The panel's `top`, in page coordinates: below the trigger its top edge
   * meets the trigger's bottom edge; above it, its bottom edge meets the
   * trigger's top edge.
   */
  function PanelTop(m: Measurements): (t: real)
    ensures PlaceBelow(m) ==> t == m.scrollY + m.trigger.Top() + m.trigger.height
    ensures !PlaceBelow(m) ==> t + m.panel.height == m.scrollY + m.trigger.Top()
  {
    if PlaceBelow(m) then m.scrollY + m.trigger.Top() + m.trigger.height
    else m.scrollY + m.trigger.Top() - m.panel.height
  }

  /**
   * Away from both edges the panel is centred on the trigger; near the left
   * edge more of it lies to the right of the trigger's centre, near the
   * right edge more of it lies to the left.
   */
  lemma PanelShiftsAwayFromEdge(m: Measurements)
    requires m.panel.width > 0.0
    ensures !NearLeftEdge(m) && !NearRightEdge(m) ==> PanelLeft(m) + m.panel.width / 2.0 == TriggerCentre(m)
    ensures NearLeftEdge(m) && !NearRightEdge(m) ==> PanelLeft(m) + m.panel.width / 2.0 > TriggerCentre(m)
    ensures NearRightEdge(m) ==> PanelLeft(m) + m.panel.width / 2.0 < TriggerCentre(m)
  {
    var f := AnchorFraction(m);
    assert PanelLeft(m) + m.panel.width / 2.0 - TriggerCentre(m) == (0.5 - f) * m.panel.width;
  }

  const LeftAdjust: string := "left-adjust"
  const RightAdjust: string := "right-adjust"
  const Up: string := "up"
  const Down: string := "down"

  /**
   * The panel's classes after one activation: an adjust class is added for
   * each edge the trigger is near and never removed, exactly one of `up` and
   * `down` is present, `up` when the panel opens below, and nothing else
   * changes.
   */
  function PlacedClasses(cs: set<string>, m: Measurements): (r: set<string>)
    ensures (Up in r) != (Down in r)
    ensures Up in r <==> PlaceBelow(m)
    ensures LeftAdjust in r <==> LeftAdjust in cs || NearLeftEdge(m)
    ensures RightAdjust in r <==> RightAdjust in cs || NearRightEdge(m)
    ensures forall c :: c != Up && c != Down && c != LeftAdjust && c != RightAdjust ==> (c in r <==> c in cs)
  {
    var adjusted := cs + (if NearLeftEdge(m) then {LeftAdjust} else {})
                       + (if NearRightEdge(m) then {RightAdjust} else {});
    if PlaceBelow(m) then adjusted - {Down} + {Up} else adjusted - {Up} + {Down}
  }

  /** The classes after a series of activations, oldest first. */
  function ClassesAfter(cs: set<string>, ms: seq<Measurements>): set<string>
    decreases |ms|
  {
    if ms == [] then cs else ClassesAfter(PlacedClasses(cs, ms[0]), ms[1..])
  }

  /**
   * Over any series of activations an adjust class is present exactly when it
   * was present before or some activation found the trigger near that edge.
   */
  lemma {:induction false} AdjustClassesPersist(cs: set<string>, ms: seq<Measurements>)
    ensures LeftAdjust in ClassesAfter(cs, ms) <==>
      LeftAdjust in cs || exists i :: 0 <= i < |ms| && NearLeftEdge(ms[i])
    ensures RightAdjust in ClassesAfter(cs, ms) <==>
      RightAdjust in cs || exists i :: 0 <= i < |ms| && NearRightEdge(ms[i])
    decreases |ms|
  {
    if ms != [] {
      AdjustClassesPersist(PlacedClasses(cs, ms[0]), ms[1..]);
      forall i | 1 <= i < |ms| ensures ms[i] == ms[1..][i - 1] {
      }
      if exists i :: 0 <= i < |ms| && NearLeftEdge(ms[i]) {
        var i :| 0 <= i < |ms| && NearLeftEdge(ms[i]);
        if i > 0 {
          assert NearLeftEdge(ms[1..][i - 1]);
        }
      }
      if exists i :: 0 <= i < |ms| && NearRightEdge(ms[i]) {
        var i :| 0 <= i < |ms| && NearRightEdge(ms[i]);
        if i > 0 {
          assert NearRightEdge(ms[1..][i - 1]);
        }
      }
    }
  }

  /** After at least one activation exactly one of `up` and `down` is present, as the last one chose. */
  lemma {:induction false} DirectionFollowsLastActivation(cs: set<string>, ms: seq<Measurements>)
    requires ms != []
    ensures (Up in ClassesAfter(cs, ms)) != (Down in ClassesAfter(cs, ms))
    ensures Up in ClassesAfter(cs, ms) <==> PlaceBelow(ms[|ms| - 1])
    decreases |ms|
  {
    if |ms| > 1 {
      DirectionFollowsLastActivation(PlacedClasses(cs, ms[0]), ms[1..]);
    }
  }

  /** The panel element: its class list, its inline `left` and `top`, and whether it is showing. */
  class Panel {
    var classes: set<string>
    var left: Option<real>
    var top: Option<real>
    var open: bool

    constructor ()
      ensures classes == {} && left == None && top == None && !open
    {
      classes := {};
      left := None;
      top := None;
      open := false;
    }

    /** The state of a newly created panel element, which replaces this one. */
    method Reset()
      modifies this
      ensures classes == {} && left == None && top == None && !open
    {
      classes := {};
      left := None;
      top := None;
      open := false;
    }

    /** One activation's placement, step by step as the click handler does it. */
    method Place(m: Measurements)
      modifies this
      ensures classes == PlacedClasses(old(classes), m)
      ensures left == Some(PanelLeft(m))
      ensures top == Some(PanelTop(m))
      ensures open == old(open)
    {
      var b := m.trigger;
      var l := b.Left() + b.width / 2.0 - m.panel.width / 2.0;
      if b.Left() < EdgeMargin {
        l := b.Left() + b.width / 2.0 - m.panel.width * 0.25;
        classes := classes + {LeftAdjust};
      }
      if b.Right() > m.innerWidth - EdgeMargin {
        l := b.Left() + b.width / 2.0 - m.panel.width * 0.75;
        classes := classes + {RightAdjust};
      }
      left := Some(l);
      if m.clientHeight / 2.0 > b.y {
        top := Some(m.scrollY + b.Top() + b.height);
        classes := classes - {Down};
        classes := classes + {Up};
      } else {
        top := Some(m.scrollY + b.Top() - m.panel.height);
        classes := classes - {Up};
        classes := classes + {Down};
      }
    }
  }
}
