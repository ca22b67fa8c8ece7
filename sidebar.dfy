/**
 * The session list (src/components/Sidebar.tsx): inline renaming, the
 * two-click close (`Confirm.DeleteConfirm`), and the time shown for each
 * session.
 */
module SessionList {
  import opened Wrappers
  import opened Text
  import opened Types
  import opened AppShell
  import opened Confirm

  class Sidebar {
    /** The two-click close of a session. */
    const closes: DeleteConfirm
    /** `editingId`: the session whose name is being edited. */
    var editingId: Option<string>
    /** `editValue`: the text of the rename box. */
    var editValue: string
    /** The `onRename(id, name)` calls made, in order. */
    var renames: seq<(string, string)>

    constructor ()
      ensures fresh(closes) && closes.Valid() && closes.armed == None && closes.timers == [] && closes.deleted == []
      ensures editingId == None && editValue == "" && renames == []
    {
      closes := new DeleteConfirm();
      editingId := None;
      editValue := "";
      renames := [];
    }

    /** `startRename(id, currentName)`: edit that session, starting from its current name. */
    method StartRename(id: string, currentName: string)
      modifies this
      ensures editingId == Some(id) && editValue == currentName && renames == old(renames)
    {
      editingId := Some(id);
      editValue := currentName;
    }

    /** A keystroke in the rename box. */
    method Edit(value: string)
      modifies this
      ensures editValue == value && editingId == old(editingId) && renames == old(renames)
    {
      editValue := value;
    }

    /**
     * `finishRename` (Enter or leaving the box): the trimmed text is handed
     * to `onRename` when a session is being edited and the text is not
     * blank; editing ends either way.
     */
    method FinishRename()
      modifies this
      ensures editingId == None && editValue == old(editValue)
      ensures renames == old(renames) + RenameCall(old(editingId), old(editValue))
    {
      renames := renames + RenameCall(editingId, editValue);
      editingId := None;
    }

    /** Escape in the rename box: editing ends and nothing is renamed. */
    method CancelRename()
      modifies this
      ensures editingId == None && editValue == old(editValue) && renames == old(renames)
    {
      editingId := None;
    }

    /** `handleDelete(id)` on a session's close button. */
    method HandleDelete(id: string)
      requires closes.Valid()
      modifies closes
      ensures closes.Valid()
      ensures closes.armed == Click(old(closes.armed), id).0
      ensures closes.deleted == old(closes.deleted) + (if Click(old(closes.armed), id).1 then [id] else [])
      ensures closes.timers == old(closes.timers) + (if Click(old(closes.armed), id).1 then [] else [id])
    {
      closes.HandleDelete(id);
    }
  }

  /**
   * The `onRename` call `finishRename` makes: one with the trimmed text
   * exactly when a session (with a non-empty id) is being edited and the
   * text is not blank, none otherwise.
   */
  function RenameCall(editingId: Option<string>, editValue: string): (r: seq<(string, string)>)
    ensures |r| <= 1
    ensures |r| == 1 <==> editingId.Some? && editingId.value != "" && !AllSpace(editValue)
    ensures |r| == 1 ==> r[0] == (editingId.value, Trim(editValue)) && r[0].1 != []
  {
    TrimEmptyIff(editValue);
    if editingId.Some? && editingId.value != "" && Trim(editValue) != [] then [(editingId.value, Trim(editValue))]
    else []
  }

  /** The timestamp a session's age is shown for: its last message's, or its creation time when it has none. */
  function ShownTime(s: Session): int {
    if s.messages == [] then s.createdAt else s.messages[|s.messages| - 1].timestamp
  }

  /**
   * After a message is added to a tab its shown time is that message's;
   * the other tabs keep theirs.
   */
  lemma ShownTimeAfterMessage(sessions: seq<Session>, id: string, m: Message, i: nat)
    requires i < |sessions|
    ensures ShownTime(AddMessage(sessions, id, m)[i]) ==
      if sessions[i].id == id then m.timestamp else ShownTime(sessions[i])
  {
  }

  /** A renamed session is renamed to the trimmed name that `finishRename` handed over. */
  lemma RenameAppliesCall(sessions: seq<Session>, editingId: Option<string>, editValue: string, i: nat)
    requires i < |sessions| && |RenameCall(editingId, editValue)| == 1
    ensures var (id, name) := RenameCall(editingId, editValue)[0];
      RenameSession(sessions, id, name)[i].name == if sessions[i].id == editingId.value then Trim(editValue) else sessions[i].name
  {
  }
}
