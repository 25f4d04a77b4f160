/**
 * Which API keys are shown unmasked (dandi/hooks/use-revealed-keys.ts): a
 * set of key ids that `toggleReveal` flips one id in and `isRevealed` asks.
 */
module RevealedKeys {

  /** The set after toggling `id`: `id` leaves it if it was there and joins it otherwise. */
  function Toggled(revealed: set<string>, id: string): (r: set<string>)
    ensures id in r <==> id !in revealed
    ensures forall other | other != id :: other in r <==> other in revealed
  {
    if id in revealed then revealed - {id} else revealed + {id}
  }

  /** Toggling the same id twice restores the set. */
  lemma ToggleTwice(revealed: set<string>, id: string)
    ensures Toggled(Toggled(revealed, id), id) == revealed
  {
  }

  /** Toggles of two ids can happen in either order. */
  lemma TogglesCommute(revealed: set<string>, a: string, b: string)
    ensures Toggled(Toggled(revealed, a), b) == Toggled(Toggled(revealed, b), a)
  {
  }

  /** The set after toggling each id of `ids` in turn. */
  function ToggledAll(revealed: set<string>, ids: seq<string>): set<string>
    decreases |ids|
  {
    if ids == [] then revealed else ToggledAll(Toggled(revealed, ids[0]), ids[1..])
  }

  /** How many times `id` occurs in `ids`. */
  function Occurrences(ids: seq<string>, id: string): nat {
    if ids == [] then 0 else (if ids[0] == id then 1 else 0) + Occurrences(ids[1..], id)
  }

  /** After a series of toggles, an id is revealed exactly when it started revealed and was toggled an even number of times, or started hidden and was toggled an odd number of times. */
  lemma {:induction false} RevealedIffOddToggles(revealed: set<string>, ids: seq<string>, id: string)
    ensures id in ToggledAll(revealed, ids) <==> (id in revealed <==> Occurrences(ids, id) % 2 == 0)
    decreases |ids|
  {
    if ids != [] {
      RevealedIffOddToggles(Toggled(revealed, ids[0]), ids[1..], id);
    }
  }

  /** From the initial empty set, the revealed ids are those toggled an odd number of times. */
  lemma {:induction false} FromNothingOddToggles(ids: seq<string>, id: string)
    ensures id in ToggledAll({}, ids) <==> Occurrences(ids, id) % 2 == 1
  {
    RevealedIffOddToggles({}, ids, id);
  }

  /** The hook's state. */
  class RevealedKeySet {
    var revealedKeys: set<string>

    /** Nothing is revealed at first. */
    constructor()
      ensures revealedKeys == {}
    {
      revealedKeys := {};
    }

    /** `toggleReveal`: copy the set, flip `id` in the copy, store the copy. */
    method ToggleReveal(id: string)
      modifies this
      ensures revealedKeys == Toggled(old(revealedKeys), id)
    {
      var newSet := revealedKeys;
      if id in newSet {
        newSet := newSet - {id};
      } else {
        newSet := newSet + {id};
      }
      revealedKeys := newSet;
    }

    /** `isRevealed`: whether `id` is in the set. */
    function IsRevealed(id: string): (revealed: bool)
      reads this
      ensures revealed <==> id in revealedKeys
    {
      id in revealedKeys
    }
  }
}
