/**
 * The create/edit task form (src/components/TaskModal.tsx): the tag list
 * and its editing, the common-tag suggestions, and the task record the
 * form submits.
 */
module TaskForm {
  import opened Wrappers
  import opened Seqs
  import opened Text
  import opened Types

  const CommonTags: seq<string> := ["urgent", "code", "research", "content", "review", "bug", "feature"]

  datatype Form = Form(
    title: string,
    description: string,
    priority: TaskPriority,
    assignedAgentId: string,
    tags: seq<string>,
    tagInput: string)

  /** The form as the modal opens: the edited task's fields, missing ones defaulted, or a blank form. */
  function Opened(editing: Option<Task>): (f: Form)
    ensures f.tagInput == ""
    ensures editing.None? ==> f == Form("", "", Medium, "", [], "")
    ensures editing.Some? ==>
      var t := editing.value;
      && f.title == t.title
      && f.description == (if t.description.Some? then t.description.value else "")
      && f.priority == (if t.priority.Some? then t.priority.value else Medium)
      && f.assignedAgentId == (if t.assignedAgentId.Some? then t.assignedAgentId.value else "")
      && f.tags == (if t.tags.Some? then t.tags.value else [])
  {
    match editing
    case None => Form("", "", Medium, "", [], "")
    case Some(t) =>
      Form(t.title,
           if t.description.Some? then t.description.value else "",
           if t.priority.Some? then t.priority.value else Medium,
           if t.assignedAgentId.Some? then t.assignedAgentId.value else "",
           if t.tags.Some? then t.tags.value else [],
           "")
  }

  // ---------------------------------------------------------------- tags

  /** `tag.toLowerCase().trim()`. */
  function Normalize(tag: string): string {
    Trim(Lower(tag))
  }

  /** A tag as `addTag` stores it: non-empty, lower-case, no white space at either end. */
  predicate IsTag(t: string) {
    t != [] && IsLowerText(t) && !IsJsSpace(t[0]) && !IsJsSpace(t[|t| - 1])
  }

  /** A tag list without repeats whose every entry is a stored tag. */
  predicate TagsOk(tags: seq<string>) {
    Distinct(tags) && forall i :: 0 <= i < |tags| ==> IsTag(tags[i])
  }

  /** A non-blank normalised tag is a stored tag, and normalising it again changes nothing. */
  lemma NormalizeIsTag(tag: string)
    ensures Normalize(tag) != [] ==> IsTag(Normalize(tag))
    ensures Normalize(Normalize(tag)) == Normalize(tag)
  {
    LowerIsLower(tag);
    LowerTextTrim(Lower(tag));
    TrimIdempotent(Lower(tag));
    LowerOfLowerText(Normalize(tag));
  }

  /**
   * `addTag(tag)`: the normalised tag is appended unless it is blank or
   * already present; the tag input is cleared either way.
   */
  function AddTag(f: Form, tag: string): (r: Form)
    ensures r == f.(tags := r.tags, tagInput := "")
    ensures var n := Normalize(tag);
      r.tags == if n != [] && n !in f.tags then f.tags + [n] else f.tags
  {
    var n := Normalize(tag);
    f.(tags := if n != [] && n !in f.tags then f.tags + [n] else f.tags, tagInput := "")
  }

  /** Adding keeps the tag list duplicate-free and normalised, and the tag is then listed unless it was blank. */
  lemma AddTagKeepsTags(f: Form, tag: string)
    requires TagsOk(f.tags)
    ensures TagsOk(AddTag(f, tag).tags)
    ensures Normalize(tag) in AddTag(f, tag).tags <==> Normalize(tag) != []
  {
    NormalizeIsTag(tag);
    var n := Normalize(tag);
    if n != [] && n !in f.tags {
      SnocTagsOk(f.tags, n);
    }
  }

  /** Appending a new stored tag keeps a tag list well formed. */
  lemma SnocTagsOk(tags: seq<string>, n: string)
    requires TagsOk(tags) && IsTag(n) && n !in tags
    ensures TagsOk(tags + [n])
  {
    var r := tags + [n];
    forall i, j | 0 <= i < j < |r|
      ensures r[i] != r[j]
    {
      assert r[i] == tags[i];
      if j < |tags| {
        assert r[j] == tags[j];
      }
    }
    forall i | 0 <= i < |r|
      ensures IsTag(r[i])
    {
      if i < |tags| {
        assert r[i] == tags[i];
      }
    }
  }

  /** Adding the same tag twice adds it once, as does adding its normalised form after it. */
  lemma AddTagTwice(f: Form, tag: string)
    ensures AddTag(AddTag(f, tag), tag).tags == AddTag(f, tag).tags
    ensures AddTag(AddTag(f, tag), Normalize(tag)).tags == AddTag(f, tag).tags
  {
    NormalizeIsTag(tag);
  }

  /** `removeTag(tag)`: every occurrence goes, the rest keep their order. */
  function RemoveTag(f: Form, tag: string): (r: Form)
    ensures r == f.(tags := r.tags)
    ensures tag !in r.tags && |r.tags| + multiset(f.tags)[tag] == |f.tags|
    ensures forall t :: t in r.tags <==> t in f.tags && t != tag
    ensures SubseqOf(r.tags, f.tags)
  {
    FilterSubseq(t => t != tag, f.tags);
    FilterCount(t => t != tag, f.tags, tag);
    CountKeep(f.tags, tag);
    f.(tags := Filter(t => t != tag, f.tags))
  }

  /** Filtering out one value removes exactly its occurrences. */
  lemma {:induction false} CountKeep(s: seq<string>, tag: string)
    ensures |Filter(t => t != tag, s)| + multiset(s)[tag] == |s|
  {
    if s != [] {
      CountKeep(s[1..], tag);
      assert s == [s[0]] + s[1..];
    }
  }

  /** Removing a tag keeps the list well-formed, and removing a tag just added restores the list. */
  lemma RemoveAfterAdd(f: Form, tag: string)
    requires TagsOk(f.tags)
    ensures TagsOk(RemoveTag(f, tag).tags)
    ensures Normalize(tag) !in f.tags ==> RemoveTag(AddTag(f, tag), Normalize(tag)).tags == f.tags
  {
    RemoveKeepsTags(f.tags, tag);
    if Normalize(tag) !in f.tags {
      RemoveUndoesAdd(f, tag);
    }
  }

  /** Dropping one tag from a well-formed list leaves a well-formed list. */
  lemma RemoveKeepsTags(tags: seq<string>, tag: string)
    requires TagsOk(tags)
    ensures TagsOk(Filter(t => t != tag, tags))
  {
    FilterDistinct(t => t != tag, tags);
    var r := Filter(t => t != tag, tags);
    forall i | 0 <= i < |r| ensures IsTag(r[i]) {
      var j :| 0 <= j < |tags| && tags[j] == r[i];
    }
  }

  /** Removing the tag just added gives back the list it was added to. */
  lemma RemoveUndoesAdd(f: Form, tag: string)
    requires Normalize(tag) !in f.tags
    ensures RemoveTag(AddTag(f, tag), Normalize(tag)).tags == f.tags
  {
    var n := Normalize(tag);
    if n != [] {
      FilterAppend(t => t != n, f.tags, [n]);
    }
    FilterAll(t => t != n, f.tags);
  }

  /** The common tags not yet chosen, in list order. */
  function Unchosen(tags: seq<string>): seq<string> {
    Filter(t => t !in tags, CommonTags)
  }

  /** The common tags offered as suggestions: at most five, in list order, none already chosen. */
  function Suggestions(tags: seq<string>): (r: seq<string>)
    ensures |r| == if |Unchosen(tags)| < 5 then |Unchosen(tags)| else 5
    ensures forall i :: 0 <= i < |r| ==> r[i] in CommonTags && r[i] !in tags
    ensures r <= Unchosen(tags)
    ensures |Unchosen(tags)| <= 5 ==> r == Unchosen(tags)
  {
    TakeFiltered(t => t !in tags, CommonTags, 5);
    Take(Unchosen(tags), 5)
  }

  // ---------------------------------------------------------------- submitting

  /** Which callback receives the task. */
  datatype Delivery = Updated | Created

  const DefaultManual := TaskSource(SourceKind.ManualSource, "", "Manual")

  /**
   * `handleSubmit`: the task and its callback, unless the trimmed title is
   * blank. A new task starts in the inbox; an edited one keeps its status,
   * its id, its creation time (a zero one counts as missing) and its
   * source. Blank fields become absent; `freshId` and `now` stand for
   * `generateId()` and `Date.now()`.
   */
  function Submit(f: Form, editing: Option<Task>, hasUpdate: bool, defaultSource: Option<TaskSource>,
                  freshId: string, now: int): Option<(Task, Delivery)>
  {
    if Trim(f.title) == [] then None
    else
      var desc := Trim(f.description);
      var task := Task(
        if editing.Some? && editing.value.id != "" then editing.value.id else freshId,
        Trim(f.title),
        if desc == [] then None else Some(desc),
        if editing.Some? then editing.value.status else Inbox,
        if f.assignedAgentId != [] then Some(f.assignedAgentId) else None,
        if editing.Some? && editing.value.createdAt != 0 then editing.value.createdAt else now,
        now,
        if editing.Some? then editing.value.source
        else if defaultSource.Some? then defaultSource.value else DefaultManual,
        if f.tags != [] then Some(f.tags) else None,
        Some(f.priority));
      Some((task, if editing.Some? && hasUpdate then Updated else Created))
  }

  /**
   * A blank title submits nothing. Otherwise a new task is in the inbox with
   * the default source (the caller's, else manual) and an edited one keeps
   * status, id, creation time and source, a blank id or zero creation time
   * being replaced by the fresh one; empty fields are absent rather than
   * empty, the assignment is the form's agent, and it does not change the
   * status.
   */
  lemma SubmitOutcome(f: Form, editing: Option<Task>, hasUpdate: bool, defaultSource: Option<TaskSource>,
                      freshId: string, now: int)
    ensures Submit(f, editing, hasUpdate, defaultSource, freshId, now).None? <==> AllSpace(f.title)
    ensures Submit(f, editing, hasUpdate, defaultSource, freshId, now).Some? ==>
      var (t, d) := Submit(f, editing, hasUpdate, defaultSource, freshId, now).value;
      && t.title == Trim(f.title) && t.title != [] && t.updatedAt == now
      && (editing.None? ==> t.status == Inbox && t.id == freshId && t.createdAt == now && d == Created)
      && (editing.Some? ==> t.status == editing.value.status && t.source == editing.value.source)
      && (editing.Some? && editing.value.id != "" ==> t.id == editing.value.id)
      && (editing.Some? && editing.value.id == "" ==> t.id == freshId)
      && (editing.Some? && editing.value.createdAt != 0 ==> t.createdAt == editing.value.createdAt)
      && (editing.Some? && editing.value.createdAt == 0 ==> t.createdAt == now)
      && (editing.None? ==> t.source == if defaultSource.Some? then defaultSource.value else DefaultManual)
      && (t.description.None? <==> AllSpace(f.description))
      && (t.description.Some? ==> t.description.value == Trim(f.description) && t.description.value != [])
      && (t.assignedAgentId.Some? <==> f.assignedAgentId != [])
      && (t.assignedAgentId.Some? ==> t.assignedAgentId.value == f.assignedAgentId)
      && (t.tags.Some? ==> t.tags.value == f.tags && f.tags != [])
      && (t.tags.None? <==> f.tags == [])
      && t.priority == Some(f.priority)
      && (d == Updated <==> editing.Some? && hasUpdate)
  {
    TrimEmptyIff(f.title);
    TrimEmptyIff(f.description);
  }
}
