/**
 * The education editor (EducationManager.tsx): its own copy of
 * the list, the id being edited, the id being dragged, and the saving flag
 * and error shown with the form.
 */
module EducationManager {
  import opened Wrappers
  import opened ProfileTypes
  import opened ProfileLists
  import Reorder

  const SaveFailed := "Failed to save changes. Please try again."

  /** The fields `EducationForm` submits; the form always submits all of them. */
  datatype EducationForm = EducationForm(degree: string, school: string, field: string, startYear: string,
                                         endYear: string, location: string, gpa: string, description: string)

  /** The form's initial data for an entry: each field, or "" when the entry has none. */
  function FormOf(e: Education): EducationForm {
    EducationForm(e.degree, e.school, e.field, e.startYear, e.endYear, e.location.GetOr(""), e.gpa.GetOr(""),
                  e.description.GetOr(""))
  }

  /** `{...item, ...education}` with the form's fields. */
  function Merge(e: Education, form: EducationForm): (r: Education)
    ensures r.id == e.id && r.logo == e.logo
    ensures FormOf(r) == form
  {
    e.(degree := form.degree, school := form.school, field := form.field, startYear := form.startYear,
       endYear := form.endYear, location := Some(form.location), gpa := Some(form.gpa),
       description := Some(form.description))
  }

  /** `{id, ...education}` for a new entry. */
  function NewEducation(id: string, form: EducationForm): (r: Education)
    ensures r.id == id && r.logo.None?
    ensures FormOf(r) == form
  {
    Education(id, form.degree, form.school, None, form.startYear, form.endYear, form.field,
              Some(form.description), Some(form.location), Some(form.gpa))
  }

  /** Saving the form as it was opened changes an entry only by turning a missing location, GPA or description into "". */
  lemma SaveUnchangedForm(e: Education)
    ensures Merge(e, FormOf(e)) == e <==> e.location.Some? && e.gpa.Some? && e.description.Some?
  {
  }

  function IndexOfId(items: seq<Education>, id: string): int {
    FindIndex(items, (e: Education) => e.id == id)
  }

  function WithoutId(items: seq<Education>, id: string): seq<Education> {
    Without(items, (e: Education) => e.id == id)
  }

  function SavedItems(items: seq<Education>, editingId: Option<string>, form: EducationForm,
                      newId: string): seq<Education> {
    Saved(items, editingId, (e: Education) => e.id, (e: Education) => Merge(e, form),
          NewEducation(newId, form))
  }

  /** Deleting removes exactly the entries with the id: every other entry is kept as often as it occurs, in order. */
  lemma DeleteSpec(items: seq<Education>, id: string, other: seq<Education>)
    ensures forall e :: multiset(WithoutId(items, id))[e] == if e.id == id then 0 else multiset(items)[e]
    ensures forall e :: e in WithoutId(items, id) ==> e.id != id
    ensures WithoutId(items + other, id) == WithoutId(items, id) + WithoutId(other, id)
  {
    WithoutCount(items, (e: Education) => e.id == id);
    WithoutConcat(items, other, (e: Education) => e.id == id);
  }

  /**
   * Saving while editing merges the form into the entries with the edited id
   * (keeping their id and logo) and leaves the others and the length alone;
   * saving otherwise appends exactly one entry, with the given id and the form's fields.
   */
  lemma SavedItemsSpec(items: seq<Education>, editingId: Option<string>, form: EducationForm, newId: string)
    ensures var r := SavedItems(items, editingId, form, newId);
            IsSetId(editingId) ==>
              |r| == |items|
              && forall i :: 0 <= i < |items| ==>
                   if items[i].id == editingId.value
                   then r[i].id == items[i].id && r[i].logo == items[i].logo && FormOf(r[i]) == form
                   else r[i] == items[i]
    ensures var r := SavedItems(items, editingId, form, newId);
            !IsSetId(editingId) ==>
              |r| == |items| + 1 && r[..|items|] == items
              && r[|items|].id == newId && FormOf(r[|items|]) == form
  {
  }

  /**
   * When the drag is over an entry of the list and a different entry is being
   * dragged, the list is a permutation of the old one of the same length with
   * the dragged entry at the target's old position (the last entry, when the
   * dragged id is no longer in the list).
   */
  lemma DragOverSpec(items: seq<Education>, draggedId: string, targetId: string)
    requires exists i :: 0 <= i < |items| && items[i].id == targetId
    ensures var d, t := IndexOfId(items, draggedId), IndexOfId(items, targetId);
            var r := Reorder.DragReorder(items, d, t);
            0 <= t < |items| && items[t].id == targetId
            && |r| == |items| && multiset(r) == multiset(items)
            && r[t] == (if d >= 0 then items[d] else items[|items| - 1])
            && (d >= 0 ==> r[t].id == draggedId)
  {
  }

  class Manager {
    var items: seq<Education>
    var editingId: Option<string>
    var draggedId: Option<string>
    var saving: bool
    var error: Option<string>

    constructor(education: seq<Education>)
      ensures items == education && editingId.None? && draggedId.None? && !saving && error.None?
    {
      items := education;
      editingId := None;
      draggedId := None;
      saving := false;
      error := None;
    }

    /** `handleDragStart` */
    method DragStart(id: string)
      modifies this
      ensures draggedId == Some(id)
      ensures items == old(items) && editingId == old(editingId) && saving == old(saving) && error == old(error)
    {
      draggedId := Some(id);
    }

    /** `handleDragEnd` */
    method DragEnd()
      modifies this
      ensures draggedId.None?
      ensures items == old(items) && editingId == old(editingId) && saving == old(saving) && error == old(error)
    {
      draggedId := None;
    }

    /** `setEditingId`: the edit button (an entry's id), the add button ("new") and cancel (null). */
    method SetEditing(id: Option<string>)
      modifies this
      ensures editingId == id
      ensures items == old(items) && draggedId == old(draggedId) && saving == old(saving) && error == old(error)
    {
      editingId := id;
    }

    /**
     * `handleDragOver(targetId)`, fired by the rendered entry with that id:
     * reorder only when an entry is being dragged and it is not the target.
     */
    method DragOver(targetId: string)
      requires exists i :: 0 <= i < |items| && items[i].id == targetId
      modifies this
      ensures IsSetId(old(draggedId)) && old(draggedId).value != targetId ==>
                items == Reorder.DragReorder(old(items), IndexOfId(old(items), old(draggedId).value),
                                             IndexOfId(old(items), targetId))
      ensures !(IsSetId(old(draggedId)) && old(draggedId).value != targetId) ==> items == old(items)
      ensures editingId == old(editingId) && draggedId == old(draggedId)
      ensures saving == old(saving) && error == old(error)
    {
      if IsSetId(draggedId) && draggedId.value != targetId {
        var copy := items;
        var d := IndexOfId(copy, draggedId.value);
        var t := IndexOfId(copy, targetId);
        items := Reorder.Reordered(copy, d, t);
      }
    }

    /**
     * `handleSave` up to the `await`: saving is on, the error cleared, and the
     * list to hand to `onUpdate` is computed (`newId` stands for `Date.now().toString()`).
     */
    method BeginSave(form: EducationForm, newId: string) returns (pending: seq<Education>)
      modifies this
      ensures saving && error.None?
      ensures pending == SavedItems(old(items), old(editingId), form, newId)
      ensures items == old(items) && editingId == old(editingId) && draggedId == old(draggedId)
    {
      saving := true;
      error := None;
      pending := SavedItems(items, editingId, form, newId);
    }

    /**
     * `handleSave` after the `await`: when `onUpdate` returned, the list becomes
     * the saved one and editing ends; when it threw, the list and the edited id
     * stay and the error is shown. Saving is off either way.
     */
    method EndSave(pending: seq<Education>, updated: bool)
      modifies this
      ensures updated ==> items == pending && editingId.None? && error == old(error)
      ensures !updated ==> items == old(items) && editingId == old(editingId) && error == Some(SaveFailed)
      ensures !saving && draggedId == old(draggedId)
    {
      if updated {
        items := pending;
        editingId := None;
      } else {
        error := Some(SaveFailed);
      }
      saving := false;
    }

    /** `handleDelete(id)` (the list also goes to `onUpdate`). */
    method Delete(id: string)
      modifies this
      ensures items == WithoutId(old(items), id)
      ensures editingId == old(editingId) && draggedId == old(draggedId)
      ensures saving == old(saving) && error == old(error)
    {
      items := WithoutId(items, id);
    }
  }
}
