// The add/edit dialog of the fields screen: which field is being edited,
// whether the dialog is open, the location picked on its map, and where a
// submitted form goes.

module FieldsModal {
  import opened Types
  import FieldForm

  /** What saving from the dialog asks of the application. */
  datatype SaveEffect = Update(field: Field) | Add(newField: NewField) | NoSave

  /**
   * When the form is rendered inside an open dialog: in edit mode always, in
   * add mode only once a location has been picked on the map.
   */
  predicate FormShown(open: bool, editing: Option<Field>, loc: Option<Location>) {
    open && ((editing.None? && loc.Some?) || editing.Some?)
  }

  /**
   * `handleSave`: a record with an id updates that field; details without an
   * id become a new field at the picked location, and nothing is saved when
   * no location has been picked.
   */
  function SaveRouting(req: FieldForm.SaveRequest, loc: Option<Location>): (r: SaveEffect)
    ensures r.NoSave? <==> req.AddRequest? && loc.None?
    ensures r.Update? <==> req.UpdateRequest?
    ensures r.Update? ==> r.field == req.field
    ensures r.Add? ==> r.newField.details == req.details && Some(r.newField.location) == loc
  {
    match req
    case UpdateRequest(f) => Update(f)
    case AddRequest(d) => if loc.Some? then Add(NewField(d, loc.value)) else NoSave
  }

  /** A form the dialog shows always leads to a save, never to `NoSave`. */
  lemma ShownFormSaves(form: FieldForm.FormState, open: bool, editing: Option<Field>, loc: Option<Location>)
    requires FormShown(open, editing, loc)
    ensures !SaveRouting(FieldForm.Submit(form, editing), loc).NoSave?
  {
  }

  /**
   * Saving an edited field updates the field with the same id and location,
   * carrying the form's details.
   */
  lemma EditSaveKeepsIdentity(form: FieldForm.FormState, f: Field, loc: Option<Location>)
    ensures SaveRouting(FieldForm.Submit(form, Some(f)), loc).Update?
    ensures SaveRouting(FieldForm.Submit(form, Some(f)), loc).field.id == f.id
    ensures SaveRouting(FieldForm.Submit(form, Some(f)), loc).field.location == f.location
    ensures DetailsOf(SaveRouting(FieldForm.Submit(form, Some(f)), loc).field) == FieldForm.Details(form)
  {
  }

  /** Saving a new field places the form's details at the picked location. */
  lemma AddSavePlacesAtPick(form: FieldForm.FormState, loc: Location)
    ensures SaveRouting(FieldForm.Submit(form, None), Some(loc)) == Add(NewField(FieldForm.Details(form), loc))
  {
  }

  class Dialog {
    var editingField: Option<Field>
    var isModalOpen: bool
    var newFieldLocation: Option<Location>

    /**
     * While a field is edited the picked location is that field's; a closed
     * dialog holds neither a field nor a location.
     */
    predicate Valid()
      reads this
    {
      && (editingField.Some? ==> newFieldLocation == Some(editingField.value.location))
      && (!isModalOpen ==> editingField.None? && newFieldLocation.None?)
    }

    predicate FormVisible()
      reads this
    {
      FormShown(isModalOpen, editingField, newFieldLocation)
    }

    constructor()
      ensures Valid()
      ensures !isModalOpen && editingField.None? && newFieldLocation.None?
    {
      editingField := None;
      isModalOpen := false;
      newFieldLocation := None;
    }

    /** `handleOpenAddFieldModal`: an open dialog with no field and no location. */
    method OpenAdd()
      modifies this
      ensures Valid()
      ensures isModalOpen && editingField.None? && newFieldLocation.None?
      ensures !FormVisible()
    {
      editingField := None;
      newFieldLocation := None;
      isModalOpen := true;
    }

    /** `handleOpenEditFieldModal`: an open dialog on `f`, located where `f` is. */
    method OpenEdit(f: Field)
      modifies this
      ensures Valid()
      ensures isModalOpen && editingField == Some(f) && newFieldLocation == Some(f.location)
      ensures FormVisible()
    {
      editingField := Some(f);
      newFieldLocation := Some(f.location);
      isModalOpen := true;
    }

    /**
     * A click on the dialog's map. The map is only rendered in an open dialog
     * that is not editing a field, so only then can a location be picked.
     */
    method PickLocation(loc: Location)
      requires Valid() && isModalOpen && editingField.None?
      modifies this
      ensures Valid()
      ensures newFieldLocation == Some(loc)
      ensures isModalOpen && editingField.None?
      ensures FormVisible()
    {
      newFieldLocation := Some(loc);
    }

    /** Closes the dialog and forgets the field and the location. */
    method Reset()
      modifies this
      ensures Valid()
      ensures !isModalOpen && editingField.None? && newFieldLocation.None?
    {
      isModalOpen := false;
      editingField := None;
      newFieldLocation := None;
    }

    /** `handleSave`: routes the request by the location picked before closing. */
    method Save(req: FieldForm.SaveRequest) returns (effect: SaveEffect)
      modifies this
      ensures effect == SaveRouting(req, old(newFieldLocation))
      ensures Valid()
      ensures !isModalOpen && editingField.None? && newFieldLocation.None?
    {
      effect := SaveRouting(req, newFieldLocation);
      Reset();
    }

    /** `handleCancel`: closes the dialog without saving anything. */
    method Cancel()
      modifies this
      ensures Valid()
      ensures !isModalOpen && editingField.None? && newFieldLocation.None?
    {
      Reset();
    }

    /**
     * Submitting the shown form, once the browser has let it through its
     * `required` inputs: the form builds its request from the field being
     * edited and the dialog saves it; something is always saved.
     */
    method SubmitForm(form: FieldForm.FormState) returns (effect: SaveEffect)
      requires Valid() && FormVisible() && FieldForm.Submittable(form)
      modifies this
      ensures effect == SaveRouting(FieldForm.Submit(form, old(editingField)), old(newFieldLocation))
      ensures !effect.NoSave?
      ensures old(editingField).Some? ==> effect == Update(FieldForm.Merge(old(editingField).value, FieldForm.Details(form)))
      ensures old(editingField).None? ==> effect == Add(NewField(FieldForm.Details(form), old(newFieldLocation).value))
      ensures Valid()
      ensures !isModalOpen && editingField.None? && newFieldLocation.None?
    {
      ShownFormSaves(form, isModalOpen, editingField, newFieldLocation);
      var req := FieldForm.Submit(form, editingField);
      effect := Save(req);
    }
  }
}
