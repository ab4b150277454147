/**
  * `admin/aroma/Variant/CreateNewVariantDialog.tsx`: the new-variant form.
  * The form's `{name, description}` and the parent's `open` flag are state
  * that the input, add and close handlers update step by step.
  */
module CreateVariantDialog {
  import opened JsValues
  import opened AromaStoreTypes

  /** `EMPTY_VARIANT` */
  const EmptyName := ""
  const EmptyDescription := ""

  class NewVariantDialog {
    var name: string
    var description: string
    /** The parent's `openCreateVariant`, changed through `setOpen`. */
    var open: bool

    /** The form starts from `EMPTY_VARIANT` with the dialog closed (`defaultProps`). */
    constructor ()
      ensures name == EmptyName && description == EmptyDescription && !open
    {
      name, description, open := EmptyName, EmptyDescription, false;
    }

    /** `isActionDisabled`: "Add" is disabled while any of the four values is missing or empty. */
    predicate IsActionDisabled(version: string, productPreparationId: Option<int>)
      reads this
    {
      name == "" || description == "" || version == "" || !TruthyNum(productPreparationId)
    }

    /** The "New" button: `setOpen(true)`. */
    method OpenDialog()
      modifies this
      ensures open && name == old(name) && description == old(description)
    {
      open := true;
    }

    /**
      * `onInputChange`: the input named `field` takes `value`; an input
      * without a name, or one naming no form field, leaves the form as it is.
      */
    method OnInputChange(field: Option<string>, value: string)
      modifies this
      ensures name == if field == Some("name") then value else old(name)
      ensures description == if field == Some("description") then value else old(description)
      ensures open == old(open)
    {
      if TruthyStr(field) {
        if field.value == "name" {
          name := value;
        } else if field.value == "description" {
          description := value;
        }
      }
    }

    /** "Cancel", `onDialogClose`: closes the dialog and empties the form. */
    method OnDialogClose()
      modifies this
      ensures !open && name == EmptyName && description == EmptyDescription
    {
      open := false;
      name, description := EmptyName, EmptyDescription;
    }

    /** The dialog's own `onClose` (backdrop or Escape): closes it and keeps what was typed. */
    method OnBackdropClose()
      modifies this
      ensures !open && name == old(name) && description == old(description)
    {
      open := false;
    }

    /**
      * `addNewAromaProfileVariant`: with all four values present it returns
      * the `addAromaProfileVariant` payload, a create (no `update` flag)
      * carrying the typed name and description; in every case the dialog then
      * closes and the form empties, so "Add" is disabled again.
      */
    method AddNewAromaProfileVariant(version: string, productPreparationId: Option<int>)
      returns (dispatched: Option<PostPayload>)
      modifies this
      ensures dispatched.Some? <==> !old(IsActionDisabled(version, productPreparationId))
      ensures dispatched.Some? ==>
        dispatched.value == PostPayload(productPreparationId, version, None,
                                        Some(AromaTableProfile(old(name), old(description), None)), false)
      ensures !open && name == EmptyName && description == EmptyDescription
      ensures IsActionDisabled(version, productPreparationId)
    {
      dispatched := None;
      if version != "" && TruthyNum(productPreparationId) && name != "" && description != "" {
        dispatched := Some(PostPayload(productPreparationId, version, None,
                                       Some(AromaTableProfile(name, description, None)), false));
      }
      OnDialogClose();
    }
  }
}
