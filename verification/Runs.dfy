/** Facts that hold all along a run, whatever its states are. */
module Runs {

  /** What holds at one state and is kept by each step holds later. */
  lemma {:induction false} HoldsLater<W>(p: W -> bool, ws: seq<W>, i: nat, j: nat)
    requires i <= j < |ws| && p(ws[i])
    requires forall k | i <= k < j :: p(ws[k]) ==> p(ws[k + 1])
    ensures p(ws[j])
    decreases j
  {
    if i < j {
      HoldsLater(p, ws, i, j - 1);
    }
  }

  /** What holds at a state but not at an earlier one began at some step. */
  lemma {:induction false} BeganAt<W>(p: W -> bool, ws: seq<W>, i: nat, j: nat) returns (k: nat)
    requires i <= j < |ws| && !p(ws[i]) && p(ws[j])
    ensures i <= k < j && !p(ws[k]) && p(ws[k + 1])
    decreases j
  {
    k := j - 1;
    if p(ws[k]) {
      k := BeganAt(p, ws, i, k);
    }
  }
}
