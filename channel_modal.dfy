/**
 * The create/edit channel form (src/components/ChannelModal.tsx): the name
 * sanitiser applied on every keystroke, the selected-agent set, and the
 * channel record the form submits.
 *
 * The selected agents are a JavaScript `Set`; it is kept as the sequence of
 * its members in insertion order, which is what `Array.from` yields.
 */
module ChannelForm {
  import opened Wrappers
  import opened Seqs
  import opened Text
  import opened Types

  // ---------------------------------------------------------------- the name

  predicate IsNameChar(c: char) {
    'a' <= c <= 'z' || '0' <= c <= '9' || c == '-'
  }

  /**
   * `toLowerCase()` followed by replacing every character outside
   * `[a-z0-9-]` with `-`. The result holds only those characters, one for
   * each input character: an allowed character or an upper-case letter's
   * lower case where the input had one, `-` everywhere else.
   */
  function Sanitize(s: string): (r: string)
    ensures |r| == |s|
    ensures forall i :: 0 <= i < |s| ==> IsNameChar(r[i])
    ensures forall i :: 0 <= i < |s| ==> (r[i] == s[i] <==> IsNameChar(s[i]))
    ensures forall i :: 0 <= i < |s| && IsUpper(s[i]) ==> r[i] == LowerChar(s[i])
    ensures forall i :: 0 <= i < |s| && !IsUpper(s[i]) && !IsNameChar(s[i]) ==> r[i] == '-'
  {
    seq(|s|, i requires 0 <= i < |s| => if IsNameChar(LowerChar(s[i])) then LowerChar(s[i]) else '-')
  }

  /** Sanitising a sanitised name changes nothing, and neither does trimming it. */
  lemma SanitizeIdempotent(s: string)
    ensures Sanitize(Sanitize(s)) == Sanitize(s)
    ensures Trim(Sanitize(s)) == Sanitize(s)
  {
    var r := Sanitize(s);
    SanitizeFixes(r);
    NoSpaceTrim(r);
  }

  /** A name of allowed characters only is its own sanitised form. */
  lemma SanitizeFixes(r: string)
    requires forall i :: 0 <= i < |r| ==> IsNameChar(r[i])
    ensures Sanitize(r) == r
  {
    var t := Sanitize(r);
    forall i | 0 <= i < |r|
      ensures t[i] == r[i]
    {
      assert IsNameChar(r[i]);
    }
  }

  /** A string without white space at either end trims to itself. */
  lemma NoSpaceTrim(r: string)
    requires forall i :: 0 <= i < |r| ==> IsNameChar(r[i])
    ensures Trim(r) == r
  {
    if r != [] {
      assert !IsJsSpace(r[0]) && !IsJsSpace(r[|r| - 1]);
    }
  }

  // ---------------------------------------------------------------- the agent set

  /**
   * `r` lists ids in order of first occurrence in `ids`: each entry occurs
   * in `ids` before every occurrence of any later entry.
   */
  predicate FirstOccurrenceOrder(r: seq<string>, ids: seq<string>) {
    forall i, j, q :: 0 <= i < j < |r| && 0 <= q < |ids| && ids[q] == r[j] ==> r[i] in ids[..q]
  }

  /** `new Set(ids)`: the distinct ids in order of first occurrence. */
  function SetOf(ids: seq<string>): (r: seq<string>)
    ensures Distinct(r)
    ensures forall x :: x in r <==> x in ids
    ensures SubseqOf(r, ids)
    ensures FirstOccurrenceOrder(r, ids)
  {
    if ids == [] then []
    else
      var init := SetOf(ids[..|ids| - 1]);
      assert ids == ids[..|ids| - 1] + [ids[|ids| - 1]];
      SubseqSnoc(init, ids[..|ids| - 1], ids[|ids| - 1]);
      assert forall x :: x in ids <==> x in ids[..|ids| - 1] || x == ids[|ids| - 1] by {
        assert ids == ids[..|ids| - 1] + [ids[|ids| - 1]];
      }
      OrderAfterSetDistinct(init, ids[|ids| - 1]);
      FirstOccurrenceSnoc(init, ids[..|ids| - 1], ids[|ids| - 1]);
      OrderAfterSet(init, ids[|ids| - 1])
  }

  /** Adding one id at the end of the input keeps the order of first occurrence. */
  lemma FirstOccurrenceSnoc(init: seq<string>, pre: seq<string>, x: string)
    requires forall y :: y in init <==> y in pre
    requires FirstOccurrenceOrder(init, pre)
    ensures FirstOccurrenceOrder(OrderAfterSet(init, x), pre + [x])
  {
    var r, ids := OrderAfterSet(init, x), pre + [x];
    forall i, j, q | 0 <= i < j < |r| && 0 <= q < |ids| && ids[q] == r[j]
      ensures r[i] in ids[..q]
    {
      if q < |pre| {
        assert ids[..q] == pre[..q];
        assert ids[q] == pre[q] && pre[q] in init;
      } else {
        assert ids[..q] == pre;
        assert r[i] in init;
      }
    }
  }

  /** `toggleAgent`: the id leaves the set when it is in it and joins it, last, otherwise. */
  function Toggle(selected: seq<string>, id: string): (r: seq<string>)
    requires Distinct(selected)
    ensures Distinct(r)
    ensures id in r <==> id !in selected
    ensures forall x :: x != id ==> (x in r <==> x in selected)
  {
    OrderAfterDeleteDistinct(selected, id);
    if id in selected then OrderAfterDelete(selected, id) else selected + [id]
  }

  /**
   * Toggling twice restores the set: the same members, and the same order
   * when the id was not a member; a member toggled out and back in moves
   * to the end.
   */
  lemma ToggleTwice(selected: seq<string>, id: string)
    requires Distinct(selected)
    ensures forall x :: x in Toggle(Toggle(selected, id), id) <==> x in selected
    ensures id !in selected ==> Toggle(Toggle(selected, id), id) == selected
    ensures id in selected ==> Toggle(Toggle(selected, id), id) == OrderAfterDelete(selected, id) + [id]
  {
    if id !in selected {
      DeleteLast(selected, id);
    }
  }

  // ---------------------------------------------------------------- submitting

  datatype Form = Form(name: string, description: string, selected: seq<string>)

  /** The form as it opens: the edited channel's fields, or blank ones. */
  function Opened(editing: Option<Channel>): (f: Form)
    ensures Distinct(f.selected)
    ensures editing.None? ==> f == Form("", "", [])
    ensures editing.Some? ==>
      (f.name == editing.value.name && f.description == editing.value.description
       && forall x :: x in f.selected <==> x in editing.value.memberAgentIds)
  {
    if editing.None? then Form("", "", [])
    else Form(editing.value.name, editing.value.description, SetOf(editing.value.memberAgentIds))
  }

  /** Which callback receives the channel. */
  datatype Delivery = Updated | Created

  /**
   * `handleSubmit`: the channel and its callback, when the trimmed name is
   * non-empty and at least one agent is selected. An empty id or a zero
   * `createdAt` of the edited channel counts as missing (`||`), and then
   * `freshId` and `now` are used. `hasUpdate` says whether `onUpdateChannel`
   * was passed. After a submission the form is cleared to `Opened(None)`.
   */
  function Submit(f: Form, editing: Option<Channel>, hasUpdate: bool, freshId: string, now: int): Option<(Channel, Delivery)> {
    if Trim(f.name) == [] || f.selected == [] then None
    else
      var ch := Channel(
        if editing.Some? && editing.value.id != "" then editing.value.id else freshId,
        Trim(f.name),
        Trim(f.description),
        f.selected,
        if editing.Some? && editing.value.createdAt != 0 then editing.value.createdAt else now);
      Some((ch, if editing.Some? && hasUpdate then Updated else Created))
  }

  /**
   * Nothing is submitted for a blank name or an empty selection. Otherwise
   * the channel has the trimmed name and description and exactly the
   * selected members; an edit keeps the edited channel's id and creation
   * time and goes to `onUpdateChannel` when there is one.
   */
  lemma SubmitOutcome(f: Form, editing: Option<Channel>, hasUpdate: bool, freshId: string, now: int)
    ensures Submit(f, editing, hasUpdate, freshId, now).None? <==> AllSpace(f.name) || f.selected == []
    ensures Submit(f, editing, hasUpdate, freshId, now).Some? ==>
      var (ch, d) := Submit(f, editing, hasUpdate, freshId, now).value;
      && ch.name == Trim(f.name) && ch.name != [] && ch.description == Trim(f.description)
      && ch.memberAgentIds == f.selected
      && (editing.Some? && editing.value.id != "" ==> ch.id == editing.value.id)
      && (editing.Some? && editing.value.createdAt != 0 ==> ch.createdAt == editing.value.createdAt)
      && (editing.None? ==> ch.id == freshId && ch.createdAt == now && d == Created)
      && (d == Updated <==> editing.Some? && hasUpdate)
  {
    TrimEmptyIff(f.name);
  }

  /** `getAgentColor(index)`: the palette colour of a position; positions seven apart share it. */
  function ModalColor(index: nat): (c: string)
    ensures c == ColorAt(index + 7)
  {
    ColorAt(index)
  }
}
