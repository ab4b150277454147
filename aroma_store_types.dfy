/**
  * The shapes of `feature/aroma/store/types.ts`: profile variants and the
  * payloads the aroma actions carry. The `fetch` function every payload
  * carries is left out: the requests it makes are not part of this model.
  */
module AromaStoreTypes {
  import opened JsValues
  import opened AromaTypes

  /** `AromaTableProfile`: a named variant; `records` is `data?.records`. */
  datatype AromaTableProfile = AromaTableProfile(name: string, description: string, records: Option<seq<AromaRecord>>)

  /** The main ingredient as the ingredient database returns it (only the fields the aroma views read). */
  datatype Ingredient = Ingredient(productPreparationId: int, name: string)

  /** `GenericAromaVizPayload` / `LoadAromaVizIngredientDataPayload`. */
  datatype LoadPayload = LoadPayload(
    productPreparationId: Option<int>,
    version: string,
    dataType: Option<Field>,
    profileName: Option<string>)

  /** `PostAromaProfileVariantPayload`; `profile` may be missing at run time. */
  datatype PostPayload = PostPayload(
    productPreparationId: Option<int>,
    version: string,
    dataType: Option<Field>,
    profile: Option<AromaTableProfile>,
    update: bool)

  /** `LoadDotGraphIngredientData`. */
  datatype LoadDotGraphPayload = LoadDotGraphPayload(
    productPreparationId: Option<int>,
    version: string,
    ingredient: Option<DotGraphRow>,
    resetDotGraph: bool)

  /** `SetIngredientAromaVizRows`. */
  datatype SetRowsPayload = SetRowsPayload(aromaVizRows: seq<AromaRecord>, dataType: Option<Field>)

  /** `SetDotGraphRows`; the main ingredient is `null` when `None`. */
  datatype SetDotGraphRowsPayload = SetDotGraphRowsPayload(
    dotGraphMainIngredient: Option<DotGraphRow>,
    dotGraphOtherIngredients: Option<seq<Option<DotGraphRow>>>,
    addDotGraphOtherIngredient: Option<DotGraphRow>)
}
