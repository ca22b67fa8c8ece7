/**
 * The two-click delete of the session list and the channel list
 * (src/components/Sidebar.tsx and src/components/ChannelSidebar.tsx, whose
 * `handleDelete` handlers are the same): a first click on an item arms
 * the confirmation for it, a second click on the same item deletes it, and
 * three seconds after arming, the confirmation is dropped if it is still
 * armed for that item.
 *
 * Time is left out: every timer waits the same three seconds, so they fire
 * in the order they were started, and the model keeps them as a queue of
 * the ids they were started for and fires the oldest.
 */
module Confirm {
  import opened Wrappers

  /**
   * A click on `id`: the armed id afterwards and whether the item is
   * deleted. The item is deleted exactly when it was the armed one, and the
   * confirmation is then cleared; otherwise it is armed for `id`.
   */
  function Click(armed: Option<string>, id: string): (r: (Option<string>, bool))
    ensures r.1 <==> armed == Some(id)
    ensures r.0 == if r.1 then None else Some(id)
  {
    if armed == Some(id) then (None, true) else (Some(id), false)
  }

  /** A timer started for `id` fires: `prev === id ? null : prev`. */
  function Expire(armed: Option<string>, id: string): (r: Option<string>)
    ensures r.None? ==> armed.None? || armed == Some(id)
    ensures r.Some? ==> r == armed && armed != Some(id)
  {
    if armed == Some(id) then None else armed
  }

  /** Two clicks on the same item with no expiry between them delete it, and only the second does. */
  lemma DoubleClickDeletes(armed: Option<string>, id: string)
    requires armed != Some(id)
    ensures !Click(armed, id).1
    ensures Click(Click(armed, id).0, id) == (None, true)
  {
  }

  /** A click on another item moves the confirmation there, so the first item's timer no longer clears it. */
  lemma OtherItemKeepsArming(armed: Option<string>, a: string, b: string)
    requires a != b
    ensures Expire(Click(Click(armed, a).0, b).0, a) == Some(b)
  {
  }

  class DeleteConfirm {
    /** `confirmDeleteId`. */
    var armed: Option<string>
    /** The ids of the timers started and not yet fired, oldest first. */
    var timers: seq<string>
    /** The ids handed to the delete callback, in order. */
    var deleted: seq<string>

    /** An armed confirmation belongs to the latest timer started, so some timer will clear it. */
    ghost predicate Valid()
      reads this
    {
      armed.Some? ==> timers != [] && timers[|timers| - 1] == armed.value
    }

    constructor ()
      ensures Valid()
      ensures armed == None && timers == [] && deleted == []
    {
      armed := None;
      timers := [];
      deleted := [];
    }

    /** `handleDelete(id)`: delete the armed item, or arm this one and start its timer. */
    method HandleDelete(id: string)
      requires Valid()
      modifies this
      ensures Valid()
      ensures armed == Click(old(armed), id).0
      ensures Click(old(armed), id).1 ==> deleted == old(deleted) + [id] && timers == old(timers)
      ensures !Click(old(armed), id).1 ==> deleted == old(deleted) && timers == old(timers) + [id]
    {
      if armed == Some(id) {
        deleted := deleted + [id];
        armed := None;
      } else {
        armed := Some(id);
        timers := timers + [id];
      }
    }

    /** The oldest timer fires. */
    method Fire()
      requires Valid() && timers != []
      modifies this
      ensures Valid()
      ensures armed == Expire(old(armed), old(timers)[0])
      ensures timers == old(timers)[1..] && deleted == old(deleted)
    {
      armed := Expire(armed, timers[0]);
      timers := timers[1..];
    }
  }

  /**
   * Once every timer has fired nothing is armed: a confirmation never
   * outlives its timers.
   */
  lemma NoTimersNothingArmed(c: DeleteConfirm)
    requires c.Valid() && c.timers == []
    ensures c.armed == None
  {
  }
}
