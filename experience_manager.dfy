/**
 * The work-experience editor (WorkExperienceManager.tsx): its own copy of
 * the list, the id being edited, the id being dragged, and the saving flag
 * and error shown with the form.
 */
module ExperienceManager {
  import opened Wrappers
  import opened ProfileTypes
  import opened ProfileLists
  import Reorder

  const SaveFailed := "Failed to save changes. Please try again."

  /** The fields `ExperienceForm` submits; the form always submits all of them. */
  datatype ExperienceForm = ExperienceForm(title: string, company: string, location: string, startDate: string,
                                           endDate: string, current: bool, description: string)

  /** The form's initial data for an entry: each field, or "" (false for `current`) when the entry has none. */
  function FormOf(e: WorkExperience): ExperienceForm {
    ExperienceForm(e.title, e.company, e.location, e.startDate, e.endDate.GetOr(""), e.current, e.description)
  }

  /** `{...item, ...experience}` with the form's fields. */
  function Merge(e: WorkExperience, form: ExperienceForm): (r: WorkExperience)
    ensures r.id == e.id && r.logo == e.logo
    ensures FormOf(r) == form
  {
    e.(title := form.title, company := form.company, location := form.location, startDate := form.startDate,
       endDate := Some(form.endDate), current := form.current, description := form.description)
  }

  /** `{id, ...experience}` for a new entry. */
  function NewExperience(id: string, form: ExperienceForm): (r: WorkExperience)
    ensures r.id == id && r.logo.None?
    ensures FormOf(r) == form
  {
    WorkExperience(id, form.title, form.company, None, form.startDate, Some(form.endDate), form.current,
                   form.description, form.location)
  }

  /** Saving the form as it was opened changes an entry only by turning a missing end date into "". */
  lemma SaveUnchangedForm(e: WorkExperience)
    ensures Merge(e, FormOf(e)) == e <==> e.endDate.Some?
  {
  }

  function IndexOfId(items: seq<WorkExperience>, id: string): int {
    FindIndex(items, (e: WorkExperience) => e.id == id)
  }

  function WithoutId(items: seq<WorkExperience>, id: string): seq<WorkExperience> {
    Without(items, (e: WorkExperience) => e.id == id)
  }

  function SavedItems(items: seq<WorkExperience>, editingId: Option<string>, form: ExperienceForm,
                      newId: string): seq<WorkExperience> {
    Saved(items, editingId, (e: WorkExperience) => e.id, (e: WorkExperience) => Merge(e, form),
          NewExperience(newId, form))
  }

  /** Deleting removes exactly the entries with the id: every other entry is kept as often as it occurs, in order. */
  lemma DeleteSpec(items: seq<WorkExperience>, id: string, other: seq<WorkExperience>)
    ensures forall e :: multiset(WithoutId(items, id))[e] == if e.id == id then 0 else multiset(items)[e]
    ensures forall e :: e in WithoutId(items, id) ==> e.id != id
    ensures WithoutId(items + other, id) == WithoutId(items, id) + WithoutId(other, id)
  {
    WithoutCount(items, (e: WorkExperience) => e.id == id);
    WithoutConcat(items, other, (e: WorkExperience) => e.id == id);
  }

  /**
   * Saving while editing merges the form into the entries with the edited id
   * (keeping their id and logo) and leaves the others and the length alone;
   * saving otherwise appends exactly one entry, with the given id and the form's fields.
   */
  lemma SavedItemsSpec(items: seq<WorkExperience>, editingId: Option<string>, form: ExperienceForm, newId: string)
    ensures var r := SavedItems(items, editingId, form, newId);
            IsSetId(editingId) ==>
              |r| == |items|
              && forall i :: 0 <= i < |items| ==>
                   if items[i].id == editingId.value
                   then r[i].id == items[i].id && r[i].logo == items[i].logo && FormOf(r[i]) == form
                   else r[i] == items[i]
    ensures var r := SavedItems(items, editingId, form, newId);
            !IsSetId(editingId) ==>
              |r| == |items| + 1 && r[..|items|] == items
              && r[|items|].id == newId && FormOf(r[|items|]) == form
  {
  }

  /**
   * When the drag is over an entry of the list and a different entry is being
   * dragged, the list is a permutation of the old one of the same length with
   * the dragged entry at the target's old position (the last entry, when the
   * dragged id is no longer in the list).
   */
  lemma DragOverSpec(items: seq<WorkExperience>, draggedId: string, targetId: string)
    requires exists i :: 0 <= i < |items| && items[i].id == targetId
    ensures var d, t := IndexOfId(items, draggedId), IndexOfId(items, targetId);
            var r := Reorder.DragReorder(items, d, t);
            0 <= t < |items| && items[t].id == targetId
            && |r| == |items| && multiset(r) == multiset(items)
            && r[t] == (if d >= 0 then items[d] else items[|items| - 1])
            && (d >= 0 ==> r[t].id == draggedId)
  {
  }

  class Manager {
    var items: seq<WorkExperience>
    var editingId: Option<string>
    var draggedId: Option<string>
    var saving: bool
    var error: Option<string>

    constructor(experiences: seq<WorkExperience>)
      ensures items == experiences && editingId.None? && draggedId.None? && !saving && error.None?
    {
      items := experiences;
      editingId := None;
      draggedId := None;
      saving := false;
      error := None;
    }

    /** `handleDragStart` */
    method DragStart(id: string)
      modifies this
      ensures draggedId == Some(id)
      ensures items == old(items) && editingId == old(editingId) && saving == old(saving) && error == old(error)
    {
      draggedId := Some(id);
    }

    /** `handleDragEnd` */
    method DragEnd()
      modifies this
      ensures draggedId.None?
      ensures items == old(items) && editingId == old(editingId) && saving == old(saving) && error == old(error)
    {
      draggedId := None;
    }

    /** `setEditingId`: the edit button (an entry's id), the add button ("new") and cancel (null). */
    method SetEditing(id: Option<string>)
      modifies this
      ensures editingId == id
      ensures items == old(items) && draggedId == old(draggedId) && saving == old(saving) && error == old(error)
    {
      editingId := id;
    }

    /**
     * `handleDragOver(targetId)`, fired by the rendered entry with that id:
     * reorder only when an entry is being dragged and it is not the target.
     */
    method DragOver(targetId: string)
      requires exists i :: 0 <= i < |items| && items[i].id == targetId
      modifies this
      ensures IsSetId(old(draggedId)) && old(draggedId).value != targetId ==>
                items == Reorder.DragReorder(old(items), IndexOfId(old(items), old(draggedId).value),
                                             IndexOfId(old(items), targetId))
      ensures !(IsSetId(old(draggedId)) && old(draggedId).value != targetId) ==> items == old(items)
      ensures editingId == old(editingId) && draggedId == old(draggedId)
      ensures saving == old(saving) && error == old(error)
    {
      if IsSetId(draggedId) && draggedId.value != targetId {
        var copy := items;
        var d := IndexOfId(copy, draggedId.value);
        var t := IndexOfId(copy, targetId);
        items := Reorder.Reordered(copy, d, t);
      }
    }

    /**
     * `handleSave` up to the `await`: saving is on, the error cleared, and the
     * list to hand to `onUpdate` is computed (`newId` stands for `Date.now().toString()`).
     */
    method BeginSave(form: ExperienceForm, newId: string) returns (pending: seq<WorkExperience>)
      modifies this
      ensures saving && error.None?
      ensures pending == SavedItems(old(items), old(editingId), form, newId)
      ensures items == old(items) && editingId == old(editingId) && draggedId == old(draggedId)
    {
      saving := true;
      error := None;
      pending := SavedItems(items, editingId, form, newId);
    }

    /**
     * `handleSave` after the `await`: when `onUpdate` returned, the list becomes
     * the saved one and editing ends; when it threw, the list and the edited id
     * stay and the error is shown. Saving is off either way.
     */
    method EndSave(pending: seq<WorkExperience>, updated: bool)
      modifies this
      ensures updated ==> items == pending && editingId.None? && error == old(error)
      ensures !updated ==> items == old(items) && editingId == old(editingId) && error == Some(SaveFailed)
      ensures !saving && draggedId == old(draggedId)
    {
      if updated {
        items := pending;
        editingId := None;
      } else {
        error := Some(SaveFailed);
      }
      saving := false;
    }

    /** `handleDelete(id)` (the list also goes to `onUpdate`). */
    method Delete(id: string)
      modifies this
      ensures items == WithoutId(old(items), id)
      ensures editingId == old(editingId) && draggedId == old(draggedId)
      ensures saving == old(saving) && error == old(error)
    {
      items := WithoutId(items, id);
    }
  }
}
