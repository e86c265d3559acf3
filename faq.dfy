/**
 * The FAQ accordion: one `openIndex` that is either no item or the index of
 * the single open item, changed by the toggle rule "close it if it is the
 * open one, otherwise open it".
 */
module FaqAccordion {
  import opened Wrappers

  /** The questions of the FAQ table, in display order (the answers are display text only). */
  const QUESTIONS: seq<string> := [
    "Does Elystra require me to change my workflow?",
    "How fast can I close my first deal with Elystra?",
    "What tools does Elystra replace?",
    "Will Elystra work with my revenue model (retainers, projects, performance, hybrids)?",
    "Will it work with custom pricing or service scopes?",
    "How does pricing work?",
    "What if my clients are slow to sign?",
    "Does Elystra work for high-ticket agencies?",
    "What if I have a complex, multi-step onboarding process?",
    "Do I need to change my sales calls?",
    "What is the learning curve?",
    "What if I already have a proposal system?",
    "Does Elystra support retainers?",
    "What if my team does not use it?",
    "Who is Elystra not for?"
  ]

  /** `openIndex` is null or names an item of the table. */
  predicate ValidOpen(open: Option<int>) {
    open.Some? ==> 0 <= open.value < |QUESTIONS|
  }

  /** `isOpen` for the item at `index`. */
  predicate IsOpen(open: Option<int>, index: int): (isOpen: bool)
    ensures isOpen ==> open.Some? && open.value == index
    ensures open.Some? && open.value == index ==> isOpen
  {
    open == Some(index)
  }

  /** `onToggle` for the item at `index`, on values: the specification of `Accordion.Toggle`. */
  function Toggled(open: Option<int>, index: int): (toggled: Option<int>)
    ensures toggled == None || toggled == Some(index)
    ensures toggled == None <==> IsOpen(open, index)
  {
    if open == Some(index) then None else Some(index)
  }

  /** At most one item is open: two open items are the same item. */
  lemma AtMostOneOpen(open: Option<int>, i: int, j: int)
    requires IsOpen(open, i) && IsOpen(open, j)
    ensures i == j
  {
  }

  /** Toggling the open item closes everything; toggling any other item opens it, and only it. */
  lemma ToggleEffect(open: Option<int>, index: int)
    ensures IsOpen(open, index) ==> Toggled(open, index) == None
    ensures !IsOpen(open, index) ==> IsOpen(Toggled(open, index), index)
    ensures forall j :: j != index ==> !IsOpen(Toggled(open, index), j)
  {
  }

  /**
   * Toggling one item twice restores the state when that item was open or
   * nothing was open; when another item was open, everything ends closed.
   */
  lemma ToggleTwice(open: Option<int>, index: int)
    ensures open == Some(index) || open == None ==> Toggled(Toggled(open, index), index) == open
    ensures open.Some? && open.value != index ==> Toggled(Toggled(open, index), index) == None
  {
  }

  /** Toggling an item of the table keeps `openIndex` null or a valid index. */
  lemma ToggleKeepsValid(open: Option<int>, index: int)
    requires ValidOpen(open) && 0 <= index < |QUESTIONS|
    ensures ValidOpen(Toggled(open, index))
  {
  }

  /** The component's state. */
  class Accordion {
    var openIndex: Option<int>

    ghost predicate Valid()
      reads this
    {
      ValidOpen(openIndex)
    }

    /** The first item starts open. */
    constructor ()
      ensures Valid() && openIndex == Some(0) && IsOpen(openIndex, 0)
    {
      openIndex := Some(0);
    }

    /** The click handler of the item at `index`, one of the rendered items. */
    method Toggle(index: int)
      requires Valid()
      requires 0 <= index < |QUESTIONS|
      modifies this
      ensures Valid()
      ensures openIndex == Toggled(old(openIndex), index)
    {
      openIndex := if openIndex == Some(index) then None else Some(index);
    }

    /** The `isOpen` flag each rendered item receives, in table order. */
    method OpenFlags() returns (flags: seq<bool>)
      requires Valid()
      ensures |flags| == |QUESTIONS|
      ensures forall i :: 0 <= i < |flags| ==> (flags[i] <==> IsOpen(openIndex, i))
      ensures forall i, j :: 0 <= i < |flags| && 0 <= j < |flags| && flags[i] && flags[j] ==> i == j
      ensures (exists i :: 0 <= i < |flags| && flags[i]) <==> openIndex.Some?
    {
      flags := [];
      var i := 0;
      while i < |QUESTIONS|
        invariant 0 <= i <= |QUESTIONS|
        invariant |flags| == i
        invariant forall k :: 0 <= k < i ==> (flags[k] <==> openIndex == Some(k))
      {
        flags := flags + [openIndex == Some(i)];
        i := i + 1;
      }
      if openIndex.Some? {
        assert flags[openIndex.value];
      }
    }
  }
}
