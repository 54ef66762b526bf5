/** The edge detector behind every percussive shape (abstract-wheels/ring.js
    and abstract-wheels/wheel.js): a shape remembers whether it was active on
    the previous frame and strikes its sample only when it turns active. */
module Percussion {
  /** The outcome of one frame: whether a hit fires, and the remembered flag. */
  datatype Step = Step(fired: bool, active: bool)

  /** One frame of `handleDotPercussion`, `handleRayPercussion` and
      `handleOutlinePercussion`: fire and remember on an inactive-to-active
      change, forget on an active-to-inactive change, otherwise nothing. */
  function EdgeStep(wasActive: bool, isActive: bool): (s: Step)
    ensures s.fired <==> isActive && !wasActive
    ensures s.active == isActive
  {
    if isActive && !wasActive then Step(true, true)
    else if !isActive && wasActive then Step(false, false)
    else Step(false, wasActive)
  }

  /** The hits over a run of frames, starting from the remembered flag. */
  function Hits(wasActive: bool, frames: seq<bool>): (hits: seq<bool>)
    ensures |hits| == |frames|
    decreases |frames|
  {
    if |frames| == 0 then []
    else
      var s := EdgeStep(wasActive, frames[0]);
      [s.fired] + Hits(s.active, frames[1..])
  }

  /** The flag remembered after a run of frames. */
  function FinalFlag(wasActive: bool, frames: seq<bool>): bool
    decreases |frames|
  {
    if |frames| == 0 then wasActive else FinalFlag(EdgeStep(wasActive, frames[0]).active, frames[1..])
  }

  /** The frame before frame i: the remembered flag for the first frame. */
  function Before(wasActive: bool, frames: seq<bool>, i: nat): bool
    requires i < |frames|
  {
    if i == 0 then wasActive else frames[i - 1]
  }

  /** A run fires exactly on its rising edges. */
  lemma {:induction false} HitsOnRisingEdges(wasActive: bool, frames: seq<bool>)
    ensures forall i :: 0 <= i < |frames| ==>
              (Hits(wasActive, frames)[i] <==> frames[i] && !Before(wasActive, frames, i))
    decreases |frames|
  {
    if |frames| > 0 {
      var rest := frames[1..];
      HitsOnRisingEdges(frames[0], rest);
      forall i | 1 <= i < |frames|
        ensures Hits(wasActive, frames)[i] <==> frames[i] && !Before(wasActive, frames, i)
      {
        assert Hits(wasActive, frames)[i] == Hits(frames[0], rest)[i - 1];
        assert Before(frames[0], rest, i - 1) == frames[i - 1];
      }
    }
  }

  /** After a run the flag is the last frame's activity, or the remembered one
      for an empty run. */
  lemma {:induction false} FinalFlagIsLastFrame(wasActive: bool, frames: seq<bool>)
    ensures FinalFlag(wasActive, frames) == if |frames| == 0 then wasActive else frames[|frames| - 1]
    decreases |frames|
  {
    if |frames| > 0 {
      FinalFlagIsLastFrame(frames[0], frames[1..]);
    }
  }

  /** Sustained activity never strikes twice: between two hits the shape was
      inactive on some frame. */
  lemma NoRetriggerWhileActive(wasActive: bool, frames: seq<bool>, i: nat, j: nat)
    requires i < j < |frames|
    requires Hits(wasActive, frames)[i] && Hits(wasActive, frames)[j]
    ensures exists k :: i < k < j && !frames[k]
  {
    HitsOnRisingEdges(wasActive, frames);
    assert frames[i] && !frames[j - 1];
  }

  /** A run that starts active and stays active fires nothing. */
  lemma SustainedIsSilent(frames: seq<bool>)
    requires forall i :: 0 <= i < |frames| ==> frames[i]
    ensures forall i :: 0 <= i < |frames| ==> !Hits(true, frames)[i]
  {
    HitsOnRisingEdges(true, frames);
  }

  /** Active for two frames, inactive, active again: the shape strikes on the
      first and the fourth frame. */
  lemma ReactivationStrikesAgain()
    ensures Hits(false, [true, true, false, true]) == [true, false, false, true]
  {
    HitsOnRisingEdges(false, [true, true, false, true]);
  }
}
