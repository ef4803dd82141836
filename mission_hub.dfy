/**
 * The hub's mission carousel (src/components/MissionHub.tsx).
 *
 * Six mission cards sit on a circle; one index says which card is in the
 * centre. The next/previous buttons rotate the index, every card is shown
 * left of, in, or right of the centre or is hidden, and only the centre card
 * can be activated, which navigates to that card's scene.
 */
module MissionHub {
  import opened Wrappers
  import opened App

  /** The mission ids, in carousel order. */
  const Missions: seq<Scene> := [Profile, Skills, Projects, Codex, Contact, Gallery]

  /** missions.length */
  const MissionCount: nat := 6

  lemma MissionsShape()
    ensures |Missions| == MissionCount
    ensures forall i :: 0 <= i < |Missions| ==> IsContent(Missions[i])
  {
  }

  /**
   * Array.prototype.findIndex with an equality test: the first position
   * holding x, or -1 when there is none.
   */
  function FindIndex<T(==)>(s: seq<T>, x: T): (k: int)
    ensures -1 <= k < |s|
    ensures 0 <= k ==> s[k] == x && forall j :: 0 <= j < k ==> s[j] != x
    ensures k == -1 <==> x !in s
  {
    if s == [] then -1
    else if s[0] == x then 0
    else
      var k := FindIndex(s[1..], x);
      assert forall j :: 1 <= j < |s| ==> s[j] == s[1..][j - 1];
      if k < 0 then -1 else k + 1
  }

  /**
   * The index the carousel starts at: the position of initialMission
   * (which defaults to profile when absent) or 0 when it is not a mission.
   */
  function InitialIndex(initialMission: Option<Scene>): (i: nat)
    ensures i < MissionCount
    ensures initialMission.GetOr(Profile) in Missions ==> Missions[i] == initialMission.GetOr(Profile)
    ensures initialMission.GetOr(Profile) !in Missions ==> i == 0
  {
    var k := FindIndex(Missions, initialMission.GetOr(Profile));
    if k >= 0 then k else 0
  }

  /** Every content scene is re-found: the carousel opens centred on it. */
  lemma InitialIndexOfContent(c: Scene)
    requires IsContent(c)
    ensures Missions[InitialIndex(Some(c))] == c
  {
    assert c in Missions by {
      match c
      case Profile => assert Missions[0] == c;
      case Skills => assert Missions[1] == c;
      case Projects => assert Missions[2] == c;
      case Codex => assert Missions[3] == c;
      case Contact => assert Missions[4] == c;
      case Gallery => assert Missions[5] == c;
    }
  }

  /** The index after nextCard. */
  function NextIndex(i: nat): (j: nat)
    requires i < MissionCount
    ensures j < MissionCount
    ensures j == if i == MissionCount - 1 then 0 else i + 1
  {
    (i + 1) % MissionCount
  }

  /** The index after prevCard. */
  function PrevIndex(i: nat): (j: nat)
    requires i < MissionCount
    ensures j < MissionCount
    ensures j == if i == 0 then MissionCount - 1 else i - 1
  {
    (i - 1 + MissionCount) % MissionCount
  }

  /** prevCard undoes nextCard and nextCard undoes prevCard. */
  lemma NextPrevInverse(i: nat)
    requires i < MissionCount
    ensures PrevIndex(NextIndex(i)) == i
    ensures NextIndex(PrevIndex(i)) == i
  {
  }

  /** The index after k presses of the next button. */
  function Advance(i: nat, k: nat): (j: nat)
    requires i < MissionCount
    ensures j < MissionCount
  {
    if k == 0 then i else NextIndex(Advance(i, k - 1))
  }

  /** k presses of next move the index k places round the circle. */
  lemma {:induction false} AdvanceIsRotation(i: nat, k: nat)
    requires i < MissionCount
    ensures Advance(i, k) == (i + k) % MissionCount
  {
    if k > 0 {
      AdvanceIsRotation(i, k - 1);
      RotationStep(i + k - 1);
    }
  }

  /** One more step round the circle, in terms of the remainder. */
  lemma RotationStep(n: nat)
    ensures (n + 1) % MissionCount == NextIndex(n % MissionCount)
  {
    var q, r := n / MissionCount, n % MissionCount;
    assert n == MissionCount * q + r;
    if r == MissionCount - 1 {
      assert n + 1 == MissionCount * (q + 1);
    } else {
      assert n + 1 == MissionCount * q + (r + 1);
    }
  }

  /** Six presses of next come back to the start. */
  lemma AdvanceSixIsIdentity(i: nat)
    requires i < MissionCount
    ensures Advance(i, 6) == i
  {
    AdvanceIsRotation(i, 6);
  }

  datatype Position = Center | Left | Right | Hidden

  /**
   * getCardPosition: the slot of the card at `index`, from its signed
   * distance to the centre index.
   */
  function CardPosition(index: nat, current: nat): (p: Position)
    requires index < MissionCount && current < MissionCount
    ensures p == Center <==> index == current
    ensures p == Right <==> index == NextIndex(current)
    ensures p == Left <==> index == PrevIndex(current)
  {
    var diff := index as int - current as int;
    if diff == 0 then Center
    else if diff == 1 || diff == -(MissionCount as int - 1) then Right
    else if diff == -1 || diff == MissionCount as int - 1 then Left
    else Hidden
  }

  /** The indices of all cards in a given slot. */
  function CardsAt(current: nat, p: Position): set<nat>
    requires current < MissionCount
  {
    set i: nat | i < MissionCount && CardPosition(i, current) == p
  }

  /** Exactly one card is each of centre, right and left. */
  lemma OneCardPerSlot(current: nat)
    requires current < MissionCount
    ensures CardsAt(current, Center) == {current}
    ensures CardsAt(current, Right) == {NextIndex(current)}
    ensures CardsAt(current, Left) == {PrevIndex(current)}
  {
  }

  /**
   * The cards the hub renders (hidden cards render nothing): the centre
   * card and its two neighbours, three distinct cards.
   */
  function RenderedCards(current: nat): (v: set<nat>)
    requires current < MissionCount
    ensures v == {PrevIndex(current), current, NextIndex(current)}
    ensures |v| == 3
  {
    var v := set i: nat | i < MissionCount && CardPosition(i, current) != Hidden;
    assert v == {PrevIndex(current), current, NextIndex(current)} by {
      forall i: nat | i in v ensures i in {PrevIndex(current), current, NextIndex(current)} {
      }
    }
    v
  }

  /** The other three cards are hidden. */
  lemma ThreeHidden(current: nat)
    requires current < MissionCount
    ensures |CardsAt(current, Hidden)| == 3
  {
    var all: set<nat> := {0, 1, 2, 3, 4, 5};
    var shown := RenderedCards(current);
    assert CardsAt(current, Hidden) == all - shown;
    assert shown <= all;
  }

  /**
   * A click on the card at `index`: navigate to its mission when it is the
   * centre card, otherwise do nothing.
   */
  function ClickTarget(index: nat, current: nat): (target: Option<Scene>)
    requires index < MissionCount && current < MissionCount
    ensures target.Some? <==> index == current
    ensures target.Some? ==> target.value == Missions[current] && IsContent(target.value)
  {
    if CardPosition(index, current) == Center then Some(Missions[index]) else None
  }

  /** The carousel as the stateful component MissionHub keeps. */
  class Carousel {
    var currentIndex: nat

    ghost predicate Valid()
      reads this
    {
      currentIndex < MissionCount
    }

    /** Mounting the hub with an optional initial mission. */
    constructor (initialMission: Option<Scene>)
      ensures Valid()
      ensures currentIndex == InitialIndex(initialMission)
    {
      var k := FindIndex(Missions, initialMission.GetOr(Profile));
      currentIndex := if k >= 0 then k else 0;
    }

    /** nextCard. */
    method NextCard()
      requires Valid()
      modifies this
      ensures Valid()
      ensures currentIndex == NextIndex(old(currentIndex))
    {
      currentIndex := (currentIndex + 1) % MissionCount;
    }

    /** prevCard. */
    method PrevCard()
      requires Valid()
      modifies this
      ensures Valid()
      ensures currentIndex == PrevIndex(old(currentIndex))
    {
      currentIndex := (currentIndex - 1 + MissionCount) % MissionCount;
    }

    /** The slot of each card in the current state. */
    function Position(index: nat): (p: Position)
      reads this
      requires Valid() && index < MissionCount
      ensures p == CardPosition(index, currentIndex)
      ensures p == Center <==> index == currentIndex
      ensures p == Right <==> index == NextIndex(currentIndex)
      ensures p == Left <==> index == PrevIndex(currentIndex)
    {
      CardPosition(index, currentIndex)
    }

    /** A click on a card: the scene to navigate to, if any; no state changes. */
    method Click(index: nat) returns (target: Option<Scene>)
      requires Valid() && index < MissionCount
      ensures target.Some? <==> index == currentIndex
      ensures target.Some? ==> target.value == Missions[index]
    {
      if Position(index) == Center {
        target := Some(Missions[index]);
      } else {
        target := None;
      }
    }
  }
}
