/** The epoch loop of the trainer: best checkpoint and patience. */
module EarlyStopping {
  import opened Wrappers

  /** A validation loss as a float: training can diverge. */
  datatype Loss = Finite(value: real) | Infinite | NotANumber

  predicate Less(a: Loss, b: Loss) {
    match (a, b)
    case (Finite(x), Finite(y)) => x < y
    case (Finite(_), Infinite) => true
    case _ => false
  }

  /** `best` is the first of the epochs 1..n to attain the least finite loss, or
      0 if none of them has a finite loss. */
  ghost predicate IsBest(losses: seq<Loss>, n: nat, best: nat)
    requires n <= |losses|
  {
    && best <= n
    && (best == 0 ==> forall i :: 0 <= i < n ==> !losses[i].Finite?)
    && (best > 0 ==>
          && losses[best - 1].Finite?
          && (forall i :: 0 <= i < n && losses[i].Finite? ==> losses[best - 1].value <= losses[i].value)
          && (forall i :: 0 <= i < best - 1 && losses[i].Finite? ==> losses[best - 1].value < losses[i].value))
  }

  lemma BestIsUnique(losses: seq<Loss>, n: nat, a: nat, b: nat)
    requires n <= |losses| && IsBest(losses, n, a) && IsBest(losses, n, b)
    ensures a == b
  {
  }

  /** With the best epoch so far, is the patience exhausted after epoch n? */
  predicate Exhausted(n: nat, best: nat, patience: int) {
    n >= best + Patience(patience)
  }

  /** The counter is compared only after it was raised, so a patience below 1
      counts as 1. */
  function Patience(patience: int): nat {
    if patience < 1 then 1 else patience
  }

  function Epochs(epochs: int): nat {
    if epochs < 0 then 0 else epochs
  }

  /** `losses[i]` is the validation loss that epoch i + 1 has if it is run.  The
      saved checkpoint is that of the best epoch run; the run ends at the first
      epoch at which the patience is exhausted, or after the last one, and so has
      length min(epochs, best + patience). */
  method Train(epochs: int, patience: int, losses: seq<Loss>)
    returns (ran: nat, bestEpoch: nat, bestVal: Loss, saved: Option<nat>)
    requires epochs <= |losses|
    ensures ran <= Epochs(epochs) && IsBest(losses, ran, bestEpoch)
    ensures bestVal == if bestEpoch == 0 then Infinite else losses[bestEpoch - 1]
    ensures saved == if bestEpoch == 0 then None else Some(bestEpoch)
    ensures ran == Epochs(epochs) || Exhausted(ran, bestEpoch, patience)
    ensures forall n, b :: 0 < n < ran && IsBest(losses, n, b) ==> !Exhausted(n, b, patience)
    ensures var limit := bestEpoch + if patience < 1 then 1 else patience;
            ran == if Epochs(epochs) <= limit then Epochs(epochs) else limit
  {
    bestVal, bestEpoch, saved := Infinite, 0, None;
    var counter := 0;
    ran := 0;
    while ran < epochs
      invariant ran <= Epochs(epochs) && IsBest(losses, ran, bestEpoch)
      invariant bestVal == if bestEpoch == 0 then Infinite else losses[bestEpoch - 1]
      invariant saved == if bestEpoch == 0 then None else Some(bestEpoch)
      invariant counter == ran - bestEpoch && !Exhausted(ran, bestEpoch, patience)
      invariant forall n, b :: 0 < n <= ran && IsBest(losses, n, b) ==> !Exhausted(n, b, patience)
      decreases epochs - ran
    {
      ran := ran + 1;
      var loss := losses[ran - 1];
      if Less(loss, bestVal) {
        bestVal, bestEpoch, saved, counter := loss, ran, Some(ran), 0;
      } else {
        counter := counter + 1;
        assert IsBest(losses, ran, bestEpoch);
        if counter >= patience {
          break;
        }
      }
      forall b | IsBest(losses, ran, b)
        ensures !Exhausted(ran, b, patience)
      {
        BestIsUnique(losses, ran, b, bestEpoch);
      }
    }
  }
}
