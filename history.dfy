/**
 * The editor's undo/redo history: a list of canvas snapshots and the index of the one the
 * canvas shows, -1 before the first commit. A commit drops every entry after the index,
 * appends, and forgets the oldest entry once there are more than Limit; undo and redo move
 * the index by one. Snapshots are opaque tokens (fabric's serialised canvas).
 */
module UndoHistory {
  import opened Wrappers

  /** At most this many snapshots are kept. */
  const Limit: nat := 50

  /** The history's abstract value: the snapshot list and the current index. */
  datatype State = State(entries: seq<string>, index: int)

  /** Empty and before the first commit, or a valid index into at most Limit entries. */
  predicate Inv(h: State) {
    || (h.entries == [] && h.index == -1)
    || (0 <= h.index < |h.entries| <= Limit)
  }

  /** The state before anything is saved. */
  const Initial: State := State([], -1)

  /** The outcome of an undo or redo: the new state and the snapshot to load, if any. */
  datatype Step = Step(next: State, restore: Option<string>)

  /** saveState: keep the entries up to the index, append, evict the oldest past Limit. */
  function Committed(h: State, snapshot: string): (r: State)
    requires Inv(h)
    ensures Inv(r) && r.entries != []
    ensures r.index == |r.entries| - 1 && r.entries[r.index] == snapshot
  {
    var kept := h.entries[..h.index + 1] + [snapshot];
    var trimmed := if |kept| > Limit then kept[1..] else kept;
    State(trimmed, |trimmed| - 1)
  }

  /**
   * The commit the canvas's object:added / object:removed listeners make as the code is
   * written. They are registered once, when the canvas mounts, with the first render's
   * saveState, which still sees the history as Initial: the result is a commit onto the
   * empty history, whatever `h` holds.
   */
  function ListenerCommitted(h: State, snapshot: string): (r: State)
    requires Inv(h)
    ensures r == Committed(Initial, snapshot)
  {
    State([snapshot], 0)
  }

  /**
   * What that costs: after two adds through the listener there is nothing to undo, while
   * two commits onto the current history let undo restore the first snapshot.
   */
  lemma ListenerCommitLosesUndo(h: State, first: string, second: string)
    requires Inv(h)
    ensures Undone(ListenerCommitted(ListenerCommitted(h, first), second)).restore == None
    ensures Undone(Committed(Committed(h, first), second)).restore == Some(first)
  {
    UndoAfterCommit(Committed(h, first), second);
  }

  /** handleUndo: step back one entry when the index is above 0. */
  function Undone(h: State): (r: Step)
    requires Inv(h)
    ensures Inv(r.next) && r.next.entries == h.entries
    ensures r.restore.Some? <==> h.index > 0
    ensures r.restore.None? ==> r.next == h
    ensures r.restore.Some? ==>
              r.next.index == h.index - 1 && r.restore.value == h.entries[r.next.index]
  {
    if h.index > 0 then Step(State(h.entries, h.index - 1), Some(h.entries[h.index - 1]))
    else Step(h, None)
  }

  /** handleRedo: step forward one entry when the index is below the last. */
  function Redone(h: State): (r: Step)
    requires Inv(h)
    ensures Inv(r.next) && r.next.entries == h.entries
    ensures r.restore.Some? <==> h.index < |h.entries| - 1
    ensures r.restore.None? ==> r.next == h
    ensures r.restore.Some? ==>
              r.next.index == h.index + 1 && r.restore.value == h.entries[r.next.index]
  {
    if h.index < |h.entries| - 1 then Step(State(h.entries, h.index + 1), Some(h.entries[h.index + 1]))
    else Step(h, None)
  }

  /**
   * A commit keeps exactly the entries up to the index, in order; it forgets the oldest of
   * them only when the index was at Limit - 1, that is when keeping all would make Limit + 1.
   */
  lemma CommitKeepsPrefix(h: State, snapshot: string)
    requires Inv(h)
    ensures var r := Committed(h, snapshot);
            && (h.index < Limit - 1 ==> r.entries == h.entries[..h.index + 1] + [snapshot])
            && (h.index == Limit - 1 ==> r.entries == h.entries[1..Limit] + [snapshot])
            && |r.entries| == (if h.index == Limit - 1 then Limit else h.index + 2)
  {
  }

  /** Right after a commit there is nothing to redo: the stale redo branch is gone. */
  lemma RedoAfterCommitIsNoOp(h: State, snapshot: string)
    requires Inv(h)
    ensures Redone(Committed(h, snapshot)).restore == None
    ensures Redone(Committed(h, snapshot)).next == Committed(h, snapshot)
  {
  }

  /** Undoing a commit restores the snapshot that was current before it. */
  lemma UndoAfterCommit(h: State, snapshot: string)
    requires Inv(h) && h.index >= 0
    ensures Undone(Committed(h, snapshot)).restore == Some(h.entries[h.index])
  {
  }

  /** Redo undoes an undo: the index and the entries return to where they were. */
  lemma RedoAfterUndo(h: State)
    requires Inv(h) && h.index > 0
    ensures Redone(Undone(h).next).next == h
    ensures Redone(Undone(h).next).restore == Some(h.entries[h.index])
  {
  }

  /** Undo undoes a redo. */
  lemma UndoAfterRedo(h: State)
    requires Inv(h) && h.index < |h.entries| - 1
    ensures Undone(Redone(h).next).next == h
    ensures Undone(Redone(h).next).restore == Some(h.entries[h.index])
  {
  }

  /** The history as the App component holds it: two state cells updated in place. */
  class History {
    var entries: seq<string>
    var index: int

    /** The abstract value of the two cells. */
    function Model(): State
      reads this
    {
      State(entries, index)
    }

    ghost predicate Valid()
      reads this
    {
      Inv(Model())
    }

    constructor ()
      ensures Valid() && Model() == Initial
    {
      entries := [];
      index := -1;
    }

    /** saveState's list logic: slice, push, shift when too long, index to the tail. */
    method SaveState(snapshot: string)
      requires Valid()
      modifies this
      ensures Valid()
      ensures Model() == Committed(old(Model()), snapshot)
    {
      var newHistory := entries[..index + 1];
      newHistory := newHistory + [snapshot];
      if |newHistory| > Limit {
        newHistory := newHistory[1..];
      }
      entries := newHistory;
      index := |newHistory| - 1;
    }

    /** handleUndo: returns the snapshot to load into the canvas, if there is one. */
    method Undo() returns (restore: Option<string>)
      requires Valid()
      modifies this
      ensures Valid()
      ensures Step(Model(), restore) == Undone(old(Model()))
    {
      restore := None;
      if index > 0 {
        var prevIndex := index - 1;
        restore := Some(entries[prevIndex]);
        index := prevIndex;
      }
    }

    /** handleRedo: returns the snapshot to load into the canvas, if there is one. */
    method Redo() returns (restore: Option<string>)
      requires Valid()
      modifies this
      ensures Valid()
      ensures Step(Model(), restore) == Redone(old(Model()))
    {
      restore := None;
      if index < |entries| - 1 {
        var nextIndex := index + 1;
        restore := Some(entries[nextIndex]);
        index := nextIndex;
      }
    }
  }
}
