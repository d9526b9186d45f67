/** The saved-prompts store: a list of prompts, newest first, changed by three actions. */
module Prompts {
  import opened Wrappers
  import opened Json
  import opened Lists

  /** A saved prompt; `createdAt` is the clock reading in milliseconds. */
  datatype SavedPrompt = SavedPrompt(id: string, text: string, createdAt: nat,
                                     category: Option<string>, tags: Option<seq<string>>)

  /** The fields of an `add` payload the store copies. */
  datatype AddPayload = AddPayload(text: string, category: Option<string>, tags: Option<seq<string>>)

  datatype Action = Add(payload: AddPayload) | Remove(id: string) | Clear

  /** The prompt `add` creates at clock reading `now`: its id is the reading written in decimal. */
  function NewPrompt(p: AddPayload, now: nat): (r: SavedPrompt)
    ensures r.text == p.text && r.category == p.category && r.tags == p.tags
    ensures r.createdAt == now && ParseInt(r.id) == Some(now)
  {
    ParseIntOfIntToString(now, "");
    assert IntToString(now) + "" == IntToString(now);
    SavedPrompt(IntToString(now), p.text, now, p.category, p.tags)
  }

  /** The write side of `savedPromptsActionsAtom`: the list stored after `action`, given the
      current list and the clock reading `now`. */
  function Dispatch(current: seq<SavedPrompt>, action: Action, now: nat): (r: seq<SavedPrompt>)
    ensures action.Add? ==> |r| == |current| + 1 && r[0] == NewPrompt(action.payload, now) && r[1..] == current
    ensures action.Remove? ==> forall k :: 0 <= k < |r| ==> r[k].id != action.id && r[k] in current
    ensures action.Remove? ==> forall k :: 0 <= k < |current| && current[k].id != action.id ==> current[k] in r
    ensures action.Clear? ==> r == []
  {
    match action
    case Add(p) => [NewPrompt(p, now)] + current
    case Remove(id) => Filter(current, (p: SavedPrompt) => p.id != id)
    case Clear => []
  }

  /** `remove` keeps the order of what it keeps: removing from a concatenation removes from
      each part. */
  lemma RemoveKeepsOrder(xs: seq<SavedPrompt>, ys: seq<SavedPrompt>, id: string, now: nat)
    ensures Dispatch(xs + ys, Remove(id), now) == Dispatch(xs, Remove(id), now) + Dispatch(ys, Remove(id), now)
  {
    FilterAppend(xs, ys, (p: SavedPrompt) => p.id != id);
  }

  /** `remove` with an id no prompt carries leaves the list as it is. */
  lemma RemoveUnknownId(current: seq<SavedPrompt>, id: string, now: nat)
    requires forall k :: 0 <= k < |current| ==> current[k].id != id
    ensures Dispatch(current, Remove(id), now) == current
  {
    FilterAll(current, (p: SavedPrompt) => p.id != id);
  }

  /** A prompt just added is removed again by its id, along with any older prompt sharing it. */
  lemma RemoveAfterAdd(current: seq<SavedPrompt>, p: AddPayload, now: nat)
    ensures var added := Dispatch(current, Add(p), now);
      Dispatch(added, Remove(added[0].id), now) == Dispatch(current, Remove(added[0].id), now)
  {
    var added := Dispatch(current, Add(p), now);
    assert added == [added[0]] + current;
    RemoveKeepsOrder([added[0]], current, added[0].id, now);
    assert Filter([added[0]][..0], (q: SavedPrompt) => q.id != added[0].id) == [];
  }
}
