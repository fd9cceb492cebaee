/** The ritual page: the wish, three ritual actions (offering incense, three
    bows, chanting a sutra) and the progress that unlocks drawing a lot.

    The page state is one object whose fields the handlers update. An action
    that plays an animation is split in two: its start, which runs when the
    button is pressed, and its finish, which is the timer callback run later.
    The model counts the callbacks that have been scheduled and not yet run;
    a finish can only happen for a scheduled callback. */
module Ritual {
  import opened JsCore

  /** The number of bows that completes the bowing step. */
  const RequiredBows := 3

  /** The number of ritual conditions met: a non-empty wish, incense
      offered, three bows, sutra chanted. */
  function CompletedCount(wish: string, incenseOffered: bool, bowCount: int, sutraPlayed: bool): (r: nat)
    ensures r <= 4
    ensures r == 4 <==> wish != "" && incenseOffered && bowCount >= RequiredBows && sutraPlayed
    ensures r == 0 <==> wish == "" && !incenseOffered && bowCount < RequiredBows && !sutraPlayed
  {
    (if |wish| > 0 then 1 else 0) + (if incenseOffered then 1 else 0)
      + (if bowCount >= RequiredBows then 1 else 0) + (if sutraPlayed then 1 else 0)
  }

  /** What pressing the draw button does: nothing but a hint before the
      ritual is complete, otherwise go to the drawing page with these
      parameters. */
  datatype DrawLot = NotReady | Navigate(deityId: string, categoryId: string, wish: string)

  /** `params.get(name) || fallback`: a missing or empty parameter is
      replaced by the fallback. */
  function ParamOr(param: Option<string>, fallback: string): (r: string)
    ensures param.Some? && param.value != "" ==> r == param.value
    ensures param.None? || param.value == "" ==> r == fallback
  {
    match param
    case Some(v) => if v != "" then v else fallback
    case None => fallback
  }

  class RitualState {
    var wish: string
    var incenseOffered: bool
    var bowCount: nat
    var sutraPlayed: bool
    var completed: bool
    /** Incense callbacks scheduled and not yet run. */
    var pendingIncense: nat
    /** Bow callbacks scheduled and not yet run. */
    var pendingBows: nat
    /** Sutra callbacks scheduled and not yet run. */
    var pendingSutra: nat

    /** At most three bows, each scheduled bow callback belongs to a bow, and
        a completed ritual has had its incense, its bows and its sutra (the
        wish may have been edited since). */
    predicate Valid()
      reads this
    {
      && bowCount <= RequiredBows
      && pendingBows <= bowCount
      && (completed ==> incenseOffered && bowCount == RequiredBows && sutraPlayed)
    }

    /** The state when the page loads. */
    constructor()
      ensures Valid()
      ensures wish == "" && !incenseOffered && bowCount == 0 && !sutraPlayed && !completed
      ensures pendingIncense == 0 && pendingBows == 0 && pendingSutra == 0
    {
      wish := "";
      incenseOffered := false;
      bowCount := 0;
      sutraPlayed := false;
      completed := false;
      pendingIncense, pendingBows, pendingSutra := 0, 0, 0;
    }

    /** Counts the conditions met and marks the ritual complete when all four
        are; nothing ever marks it incomplete again. */
    method UpdateProgress() returns (count: nat)
      requires Valid()
      modifies this`completed
      ensures Valid()
      ensures count == CompletedCount(wish, incenseOffered, bowCount, sutraPlayed)
      ensures completed == (old(completed) || count == 4)
    {
      count := 0;
      if |wish| > 0 {
        count := count + 1;
      }
      if incenseOffered {
        count := count + 1;
      }
      if bowCount >= RequiredBows {
        count := count + 1;
      }
      if sutraPlayed {
        count := count + 1;
      }
      if count >= 4 {
        completed := true;
      }
    }

    /** The wish input changed. */
    method SetWish(value: string)
      requires Valid()
      modifies this`wish, this`completed
      ensures Valid()
      ensures wish == value
      ensures completed == (old(completed) || CompletedCount(value, incenseOffered, bowCount, sutraPlayed) == 4)
    {
      wish := value;
      var _ := UpdateProgress();
    }

    /** Pressing the incense button: refused once incense has been offered;
        otherwise the animation starts and the flag is only set by its
        callback. */
    method OfferIncense() returns (started: bool)
      requires Valid()
      modifies this`pendingIncense
      ensures Valid()
      ensures started == !incenseOffered
      ensures pendingIncense == old(pendingIncense) + (if started then 1 else 0)
    {
      if incenseOffered {
        return false;
      }
      pendingIncense := pendingIncense + 1;
      started := true;
    }

    /** The incense callback, four seconds later. */
    method FinishIncense()
      requires Valid() && pendingIncense > 0
      modifies this`pendingIncense, this`incenseOffered, this`completed
      ensures Valid()
      ensures pendingIncense == old(pendingIncense) - 1
      ensures incenseOffered
      ensures completed == (old(completed) || CompletedCount(wish, true, bowCount, sutraPlayed) == 4)
    {
      pendingIncense := pendingIncense - 1;
      incenseOffered := true;
      var _ := UpdateProgress();
    }

    /** Pressing the bow button: refused after three bows; otherwise the bow
        is counted at once and its animation is scheduled. */
    method PerformBow() returns (started: bool)
      requires Valid()
      modifies this`bowCount, this`pendingBows
      ensures Valid()
      ensures started == (old(bowCount) < RequiredBows)
      ensures bowCount == old(bowCount) + (if started then 1 else 0)
      ensures pendingBows == old(pendingBows) + (if started then 1 else 0)
    {
      if bowCount >= RequiredBows {
        return false;
      }
      bowCount := bowCount + 1;
      pendingBows := pendingBows + 1;
      started := true;
    }

    /** The bow callback, 1.5 seconds later: progress is updated only when the
        count stands at three by then. */
    method FinishBow()
      requires Valid() && pendingBows > 0
      modifies this`pendingBows, this`completed
      ensures Valid()
      ensures pendingBows == old(pendingBows) - 1
      ensures completed == (old(completed) || (bowCount == RequiredBows
        && CompletedCount(wish, incenseOffered, bowCount, sutraPlayed) == 4))
    {
      pendingBows := pendingBows - 1;
      if bowCount == RequiredBows {
        var _ := UpdateProgress();
      }
    }

    /** Pressing the sutra button: refused once the sutra has been chanted;
        otherwise the chant starts and the flag is only set by its callback. */
    method PlaySutra() returns (started: bool)
      requires Valid()
      modifies this`pendingSutra
      ensures Valid()
      ensures started == !sutraPlayed
      ensures pendingSutra == old(pendingSutra) + (if started then 1 else 0)
    {
      if sutraPlayed {
        return false;
      }
      pendingSutra := pendingSutra + 1;
      started := true;
    }

    /** The sutra callback, five seconds later. */
    method FinishSutra()
      requires Valid() && pendingSutra > 0
      modifies this`pendingSutra, this`sutraPlayed, this`completed
      ensures Valid()
      ensures pendingSutra == old(pendingSutra) - 1
      ensures sutraPlayed
      ensures completed == (old(completed) || CompletedCount(wish, incenseOffered, bowCount, true) == 4)
    {
      pendingSutra := pendingSutra - 1;
      sutraPlayed := true;
      var _ := UpdateProgress();
    }

    /** Dispatches a button's action name; any other name does nothing. */
    method HandleAction(action: string) returns (started: bool)
      requires Valid()
      modifies this`pendingIncense, this`bowCount, this`pendingBows, this`pendingSutra
      ensures Valid()
      ensures action != "incense" && action != "bow" && action != "sutra" ==>
        !started && unchanged(this)
      ensures action == "incense" ==>
        && started == !incenseOffered
        && pendingIncense == old(pendingIncense) + (if started then 1 else 0)
        && bowCount == old(bowCount) && pendingBows == old(pendingBows) && pendingSutra == old(pendingSutra)
      ensures action == "bow" ==>
        && started == (old(bowCount) < RequiredBows)
        && bowCount == old(bowCount) + (if started then 1 else 0)
        && pendingBows == old(pendingBows) + (if started then 1 else 0)
        && pendingIncense == old(pendingIncense) && pendingSutra == old(pendingSutra)
      ensures action == "sutra" ==>
        && started == !sutraPlayed
        && pendingSutra == old(pendingSutra) + (if started then 1 else 0)
        && pendingIncense == old(pendingIncense) && bowCount == old(bowCount) && pendingBows == old(pendingBows)
    {
      if action == "incense" {
        started := OfferIncense();
      } else if action == "bow" {
        started := PerformBow();
      } else if action == "sutra" {
        started := PlaySutra();
      } else {
        started := false;
      }
    }

    /** Pressing the draw button. Before completion only a hint is shown;
        afterwards the page moves on with the deity and category from the
        address (with their defaults) and the wish. */
    method HandleDrawLot(deityParam: Option<string>, categoryParam: Option<string>) returns (outcome: DrawLot)
      ensures outcome.NotReady? <==> !completed
      ensures completed ==>
        outcome == Navigate(ParamOr(deityParam, "guanyin_songzi"), ParamOr(categoryParam, "fertility"), wish)
    {
      if !completed {
        return NotReady;
      }
      var deityId := ParamOr(deityParam, "guanyin_songzi");
      var categoryId := ParamOr(categoryParam, "fertility");
      outcome := Navigate(deityId, categoryId, wish);
    }
  }

  /** A whole ritual in the intended order, from a fresh page: wish, incense,
      three bows and the sutra, each callback run before the next press.
      It ends complete, and the draw button then leads on. */
  method FullRitual(wish: string) returns (outcome: DrawLot)
    requires wish != ""
    ensures outcome == Navigate("guanyin_songzi", "fertility", wish)
  {
    var s := new RitualState();
    s.SetWish(wish);
    var ok := s.OfferIncense();
    s.FinishIncense();
    ok := s.PerformBow();
    s.FinishBow();
    ok := s.PerformBow();
    s.FinishBow();
    ok := s.PerformBow();
    s.FinishBow();
    ok := s.PlaySutra();
    s.FinishSutra();
    outcome := s.HandleDrawLot(None, None);
  }
}
