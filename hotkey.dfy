/**
  The session hotkeys of `useHotKey` (app/components/sidebar.tsx): Alt or
  Control with ArrowUp moves to the previous session, with ArrowDown to the
  next one. The chat store is represented by the deltas passed to its
  `nextSession`.
*/
module HotKey {
  import opened Wrappers

  /** `onKeyDown`'s decision: the session delta a key event asks for, if any. */
  function SessionDelta(altKey: bool, ctrlKey: bool, key: string): (r: Option<int>)
    ensures r == Some(-1) <==> (altKey || ctrlKey) && key == "ArrowUp"
    ensures r == Some(1) <==> (altKey || ctrlKey) && key == "ArrowDown"
    ensures r.Some? ==> r == Some(-1) || r == Some(1)
    ensures !altKey && !ctrlKey ==> r == None
  {
    if altKey || ctrlKey then
      if key == "ArrowUp" then Some(-1)
      else if key == "ArrowDown" then Some(1)
      else None
    else None
  }

  /** The arrow key that asks for a given delta. */
  function ArrowKey(delta: int): (key: string)
    requires delta == -1 || delta == 1
    ensures forall altKey: bool, ctrlKey: bool ::
      SessionDelta(altKey, ctrlKey, key) == if altKey || ctrlKey then Some(delta) else None
  {
    if delta == -1 then "ArrowUp" else "ArrowDown"
  }

  /** Every delta the decoder yields comes from its arrow key with a modifier held. */
  lemma DeltaHasArrowKey(altKey: bool, ctrlKey: bool, key: string)
    requires SessionDelta(altKey, ctrlKey, key).Some?
    ensures var d := SessionDelta(altKey, ctrlKey, key).value;
      (d == -1 || d == 1) && key == ArrowKey(d) && (altKey || ctrlKey)
  {
  }

  /** The listener, with the chat store represented by the deltas sent to `nextSession`. */
  class HotKeyListener {
    var nextSessionCalls: seq<int>

    constructor ()
      ensures nextSessionCalls == []
    {
      nextSessionCalls := [];
    }

    /** One key event issues at most one `nextSession` call, with the decoded delta. */
    method OnKeyDown(altKey: bool, ctrlKey: bool, key: string)
      modifies this
      ensures nextSessionCalls == old(nextSessionCalls) +
        match SessionDelta(altKey, ctrlKey, key)
        case Some(d) => [d]
        case None => []
    {
      if altKey || ctrlKey {
        if key == "ArrowUp" {
          nextSessionCalls := nextSessionCalls + [-1];
        } else if key == "ArrowDown" {
          nextSessionCalls := nextSessionCalls + [1];
        }
      }
    }
  }
}
