/**
 * The certificate accordion of the codex scene
 * (src/components/CodexEntries.tsx).
 *
 * At most one entry is open. Clicking an entry's header opens it, or
 * closes it when it is the open one; only the open entry shows its details.
 */
module CodexEntries {
  import opened Wrappers

  /** The number of entries in the static entry list. */
  const EntryCount: nat := 3

  /** toggleEntry's new value of openEntry. */
  function Toggled(openEntry: Option<nat>, index: nat): (r: Option<nat>)
    ensures r == None <==> openEntry == Some(index)
    ensures r != None ==> r == Some(index)
  {
    if openEntry == Some(index) then None else Some(index)
  }

  /** Toggling the same entry twice restores "it open" and "nothing open". */
  lemma ToggleTwice(openEntry: Option<nat>, index: nat)
    requires openEntry == None || openEntry == Some(index)
    ensures Toggled(Toggled(openEntry, index), index) == openEntry
  {
  }

  /** From another entry being open, toggling twice closes everything. */
  lemma ToggleTwiceFromOther(openEntry: Option<nat>, index: nat)
    requires openEntry.Some? && openEntry.value != index
    ensures Toggled(Toggled(openEntry, index), index) == None
  {
  }

  /** Whether an entry shows its details. */
  function DetailsShown(openEntry: Option<nat>, index: nat): (shown: bool)
    ensures shown <==> openEntry.Some? && openEntry.value == index
  {
    openEntry == Some(index)
  }

  /** At most one entry shows its details. */
  lemma AtMostOneShown(openEntry: Option<nat>, a: nat, b: nat)
    requires DetailsShown(openEntry, a) && DetailsShown(openEntry, b)
    ensures a == b
  {
  }

  /** The accordion as the stateful component CodexEntries keeps. */
  class Accordion {
    var openEntry: Option<nat>

    ghost predicate Valid()
      reads this
    {
      openEntry.Some? ==> openEntry.value < EntryCount
    }

    constructor ()
      ensures Valid()
      ensures openEntry == None
    {
      openEntry := None;
    }

    /** toggleEntry, called from the header of the entry at `index`. */
    method ToggleEntry(index: nat)
      requires Valid() && index < EntryCount
      modifies this
      ensures Valid()
      ensures openEntry == Toggled(old(openEntry), index)
      ensures forall j :: 0 <= j < EntryCount && j != index ==> !DetailsShown(openEntry, j)
    {
      openEntry := if openEntry == Some(index) then None else Some(index);
    }

    /** The entries currently showing their details. */
    function ShownEntries(): (shown: set<nat>)
      reads this
      requires Valid()
      ensures shown == if openEntry.Some? then {openEntry.value} else {}
      ensures |shown| <= 1
    {
      set j: nat | j < EntryCount && DetailsShown(openEntry, j)
    }
  }
}
