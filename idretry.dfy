/**
 * The identifier collision loop that `postRegistration` and `postWebhook` run
 * before they add a document: draw a 5-character identifier, ask the store for
 * a document carrying it, and draw again only while such a document exists.
 * A query error ends the loop too, keeping the last drawn identifier.
 *
 * The source loop is unbounded; here each round's random draws and whether its
 * store query fails are given up front, and a run that uses up every given round
 * without leaving the loop ends as `Unfinished`.
 */
module IdRetry {
  import Idgen

  /** Length of every identifier the handlers generate (`GenerateUID(5)`). */
  const IdLength: nat := 5

  /** One round of the loop: the random draws for the identifier, and whether the store query errs. */
  datatype Attempt = Attempt(draws: seq<Idgen.RuneIndex>, queryFails: bool)

  /** How the loop ended: with an identifier taken in round `round`, or not at all. */
  datatype IdPick = Picked(id: string, round: nat, storeError: bool) | Unfinished

  predicate Drawable(attempts: seq<Attempt>) {
    forall i :: 0 <= i < |attempts| ==> |attempts[i].draws| >= IdLength
  }

  function CandidateAt(attempts: seq<Attempt>, i: nat): (id: string)
    requires Drawable(attempts) && i < |attempts|
    ensures |id| == IdLength
  {
    Idgen.UidOf(attempts[i].draws[..IdLength])
  }

  /** The loop's outcome from round `i` on, when `taken` holds the identifiers the store already has. */
  function FirstFreeFrom(attempts: seq<Attempt>, taken: set<string>, i: nat): IdPick
    requires Drawable(attempts) && i <= |attempts|
    decreases |attempts| - i
  {
    if i == |attempts| then Unfinished
    else if attempts[i].queryFails then Picked(CandidateAt(attempts, i), i, true)
    else if CandidateAt(attempts, i) !in taken then Picked(CandidateAt(attempts, i), i, false)
    else FirstFreeFrom(attempts, taken, i + 1)
  }

  function FirstFree(attempts: seq<Attempt>, taken: set<string>): IdPick
    requires Drawable(attempts)
  {
    FirstFreeFrom(attempts, taken, 0)
  }

  /**
   * The loop leaves at the first round whose query errs or whose identifier is
   * free, and every earlier round re-drew because its identifier was taken.
   * A free identifier is never among `taken`.
   */
  lemma {:induction false} FirstFreeFromSpec(attempts: seq<Attempt>, taken: set<string>, i: nat)
    requires Drawable(attempts) && i <= |attempts|
    ensures match FirstFreeFrom(attempts, taken, i)
      case Picked(id, k, err) =>
        && i <= k < |attempts|
        && id == CandidateAt(attempts, k)
        && err == attempts[k].queryFails
        && (!err ==> id !in taken)
        && (forall j :: i <= j < k ==> !attempts[j].queryFails && CandidateAt(attempts, j) in taken)
      case Unfinished =>
        forall j :: i <= j < |attempts| ==> !attempts[j].queryFails && CandidateAt(attempts, j) in taken
    decreases |attempts| - i
  {
    if i < |attempts| && !attempts[i].queryFails && CandidateAt(attempts, i) in taken {
      FirstFreeFromSpec(attempts, taken, i + 1);
    }
  }

  /** Rounds with an error-free store whose first draw is free take that draw at once. */
  lemma FirstChoiceFree(attempts: seq<Attempt>, taken: set<string>)
    requires Drawable(attempts) && |attempts| > 0
    requires !attempts[0].queryFails && CandidateAt(attempts, 0) !in taken
    ensures FirstFree(attempts, taken) == Picked(CandidateAt(attempts, 0), 0, false)
  {
  }

  /** The collision loop, as the handlers run it. */
  method PickUniqueId(attempts: seq<Attempt>, taken: set<string>) returns (pick: IdPick)
    requires Drawable(attempts)
    ensures pick == FirstFree(attempts, taken)
    ensures pick.Picked? ==> |pick.id| == IdLength && (!pick.storeError ==> pick.id !in taken)
  {
    FirstFreeFromSpec(attempts, taken, 0);
    var i := 0;
    while i < |attempts|
      invariant 0 <= i <= |attempts|
      invariant FirstFreeFrom(attempts, taken, i) == FirstFree(attempts, taken)
      decreases |attempts| - i
    {
      var uid := Idgen.GenerateUid(IdLength, attempts[i].draws);
      if attempts[i].queryFails {
        // the query errs: log it and keep this identifier
        return Picked(uid, i, true);
      }
      if uid !in taken {
        // no document carries this identifier
        return Picked(uid, i, false);
      }
      // a document already has it: draw again
      i := i + 1;
    }
    pick := Unfinished;
  }
}
