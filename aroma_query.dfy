/**
  * `feature/aroma/store/query.ts`: turning server profile records into table
  * rows, the data-type choice when rows are fetched, the override payload of a
  * create or update, and the grouping of aroma types and molecules for the
  * dot graph. Every request is left out; a server response is a parameter.
  */
module AromaQuery {
  import opened JsValues
  import opened SeqUtil
  import opened AromaTypes
  import opened AromaStoreTypes
  import opened AromaConversion
  import opened AromaUtils

  // ---------------------------------------------------------------------
  // convertAromaRecordsToTableRows
  // ---------------------------------------------------------------------

  /**
    * `typeof m?.override === undefined ? m?.original : m?.override`. `typeof`
    * yields a string, never the value `undefined`, so the test is always false
    * and the override is read even when it is missing.
    */
  function OverrideOf(m: Measurement): (v: Val)
    ensures m.Absent? ==> v.Undefined?
    ensures m.Measured? ==> v == m.override
  {
    match m
    case Absent => Undefined
    case Measured(_, override) => override
  }

  /** One row of `records.map((row, id) => ({ ...row, fd, oav, productPreparationId, id }))`. */
  function ConvertRecord(productPreparationId: int, row: ProfileRecord, id: nat): (r: AromaRecord)
    ensures r.productPreparationId == productPreparationId && r.id == id
    ensures r.fd == OverrideOf(row.fd) && r.oav == OverrideOf(row.oav)
    ensures r.fdRelative == row.fdRelative && r.oavRelative == row.oavRelative
    ensures r.typeId == row.typeId && r.descriptorId == row.descriptorId && r.typeName == row.typeName
  {
    AromaRecord(productPreparationId, None,
      OverrideOf(row.fd), row.fdRelative, OverrideOf(row.oav), row.oavRelative,
      row.typeName, row.typeIndex, row.typeId, row.descriptor, row.descriptorIndex, row.descriptorId,
      id, row.molecules)
  }

  /** The `map` step: every record converted, its index as its id. */
  function MapRecords(productPreparationId: int, records: seq<ProfileRecord>): (rows: seq<AromaRecord>)
    ensures |rows| == |records|
    ensures forall i :: 0 <= i < |records| ==> rows[i] == ConvertRecord(productPreparationId, records[i], i)
  {
    seq(|records|, i requires 0 <= i < |records| => ConvertRecord(productPreparationId, records[i], i))
  }

  /** The original value of a measurement never reaches a table row. */
  lemma ConvertIgnoresOriginal(productPreparationId: int, row: ProfileRecord, id: nat, fdOriginal: Val, oavOriginal: Val)
    requires row.fd.Measured? && row.oav.Measured?
    ensures ConvertRecord(productPreparationId, row.(fd := row.fd.(original := fdOriginal), oav := row.oav.(original := oavOriginal)), id)
         == ConvertRecord(productPreparationId, row, id)
  {
  }

  /**
    * `convertAromaRecordsToTableRows(productPreparationId, records, dataType)`:
    * the mapped rows, reordered in place so that rows whose `dataType` field
    * is truthy come first. Each row keeps as its id its index in `records`.
    */
  method ConvertAromaRecordsToTableRows(productPreparationId: int, records: seq<ProfileRecord>, dataType: Option<Field>)
    returns (rows: seq<AromaRecord>)
    ensures multiset(rows) == multiset(MapRecords(productPreparationId, records))
    ensures NonEmptyFirst(rows, dataType)
    ensures forall i :: 0 <= i < |rows| ==>
      rows[i].productPreparationId == productPreparationId
      && 0 <= rows[i].id < |records|
      && rows[i] == ConvertRecord(productPreparationId, records[rows[i].id], rows[i].id)
  {
    var mapped := MapRecords(productPreparationId, records);
    var a := new AromaRecord[|mapped|](i requires 0 <= i < |mapped| => mapped[i]);
    assert a[..] == mapped;
    var boosted := BoostNotEmptyRows(a, dataType);
    rows := boosted[..];
    forall i | 0 <= i < |rows|
      ensures rows[i].productPreparationId == productPreparationId
      ensures 0 <= rows[i].id < |records|
      ensures rows[i] == ConvertRecord(productPreparationId, records[rows[i].id], rows[i].id)
    {
      assert rows[i] in multiset(mapped);
      var j :| 0 <= j < |mapped| && mapped[j] == rows[i];
    }
  }

  // ---------------------------------------------------------------------
  // fetchIngredientAromaVizRows
  // ---------------------------------------------------------------------

  /** `dataType ? [dataType] : getAvailableDataTypes(records)`, then its first element. */
  function ChooseDataType(dataType: Option<Field>, records: seq<ProfileRecord>): (t: Option<Field>)
    ensures dataType.Some? ==> t == dataType
    ensures dataType.None? && t.Some? ==> t.value in AvailableDataTypes(records, ProfileRecordDefines)
  {
    if dataType.Some? then dataType
    else
      var available := AvailableDataTypes(records, ProfileRecordDefines);
      if available == [] then None else Some(available[0])
  }

  /**
    * Without a requested type the choice is the measured field a record
    * carries first, `oav` before `fd` within one record, and none when no
    * record carries either.
    */
  lemma ChooseDataTypeFirstAvailable(records: seq<ProfileRecord>)
    ensures var oavAt := FirstDefining(records, ProfileRecordDefines, Oav);
      var fdAt := FirstDefining(records, ProfileRecordDefines, Fd);
      && (ChooseDataType(None, records) == None <==> oavAt == |records| && fdAt == |records|)
      && (ChooseDataType(None, records) == Some(Oav) <==> oavAt < |records| && oavAt <= fdAt)
      && (ChooseDataType(None, records) == Some(Fd) <==> fdAt < oavAt)
  {
    AvailableDataTypesShape(records, ProfileRecordDefines);
  }

  /**
    * `fetchIngredientAromaVizRows(get, version, productPreparationId, dataType, profileName)`
    * once the server has answered with `response` (`data?.records`): the
    * converted rows and the chosen type.
    */
  method FetchIngredientAromaVizRows(productPreparationId: int, dataType: Option<Field>,
                                     response: Option<seq<ProfileRecord>>)
    returns (result: SetRowsPayload)
    ensures var records := if response.Some? then response.value else [];
      && result.dataType == ChooseDataType(dataType, records)
      && multiset(result.aromaVizRows) == multiset(MapRecords(productPreparationId, records))
      && NonEmptyFirst(result.aromaVizRows, result.dataType)
  {
    var records := if response.Some? then response.value else [];
    var chosen := ChooseDataType(dataType, records);
    var rows := ConvertAromaRecordsToTableRows(productPreparationId, records, chosen);
    result := SetRowsPayload(rows, chosen);
  }

  // ---------------------------------------------------------------------
  // postAromaVariant
  // ---------------------------------------------------------------------

  /** An override record: `fd`/`oav` are `{ override: Number(v) }` or left out. */
  datatype OverrideRecord = OverrideRecord(typeId: int, descriptorId: int, fd: Option<real>, oav: Option<real>)

  /** `v ? { override: Number(v) } : undefined` */
  function OverrideValue(v: Val): (o: Option<real>)
    ensures o.Some? <==> v.Truthy()
    ensures o.Some? ==> o.value == v.n && o.value != 0.0
  {
    if v.Truthy() then Some(v.n) else None
  }

  function ToOverride(r: AromaRecord): OverrideRecord {
    OverrideRecord(r.typeId, r.descriptorId, OverrideValue(r.fd), OverrideValue(r.oav))
  }

  /** `(profile?.data?.records || []).map(...)` */
  function OverrideRecords(profile: AromaTableProfile): (o: seq<OverrideRecord>)
    ensures var records := if profile.records.Some? then profile.records.value else [];
      && |o| == |records|
      && forall i :: 0 <= i < |o| ==>
           o[i].typeId == records[i].typeId && o[i].descriptorId == records[i].descriptorId
           && (o[i].fd.Some? <==> records[i].fd.Truthy()) && (o[i].fd.Some? ==> o[i].fd.value == records[i].fd.n)
           && (o[i].oav.Some? <==> records[i].oav.Truthy()) && (o[i].oav.Some? ==> o[i].oav.value == records[i].oav.n)
  {
    var records := if profile.records.Some? then profile.records.value else [];
    seq(|records|, i requires 0 <= i < |records| => ToOverride(records[i]))
  }

  /** The profile sent with a create: the variant with its records replaced by the overrides. */
  datatype PostedProfile = PostedProfile(name: string, description: string, records: seq<OverrideRecord>)

  datatype PostBody = PostBody(
    coreVersion: string,
    productPreparationId: int,
    variantName: Option<string>,
    overrides: Option<seq<OverrideRecord>>,
    profile: Option<PostedProfile>)

  datatype Endpoint = UpdateVariant | AddVariant

  /** The request `postAromaVariant` sends: endpoint, the profile name in the URL, and the body. */
  datatype PostRequest = PostRequest(endpoint: Endpoint, version: string, productPreparationId: int,
                                     profileName: string, body: PostBody)

  /**
    * `postAromaVariant(fetch, version, productPreparationId, profile, update)`:
    * an update names the variant and sends only the overrides; a create sends
    * the whole profile with the overrides as its records.
    */
  function PostAromaVariant(version: string, productPreparationId: int, profile: AromaTableProfile,
                            update: bool := false): (req: PostRequest)
    ensures req.body.coreVersion == version && req.body.productPreparationId == productPreparationId
    ensures req.profileName == profile.name
    ensures update ==> req.endpoint == UpdateVariant && req.body.variantName == Some(profile.name)
                       && req.body.overrides == Some(OverrideRecords(profile)) && req.body.profile.None?
    ensures !update ==> req.endpoint == AddVariant && req.body.variantName.None? && req.body.overrides.None?
                        && req.body.profile == Some(PostedProfile(profile.name, profile.description, OverrideRecords(profile)))
  {
    var records := OverrideRecords(profile);
    PostRequest(
      if update then UpdateVariant else AddVariant,
      version, productPreparationId, profile.name,
      PostBody(version, productPreparationId,
        if update then Some(profile.name) else None,
        if update then Some(records) else None,
        if update then None else Some(PostedProfile(profile.name, profile.description, records))))
  }

  /** A zero value is never sent as an override; it cannot be told apart from a missing one. */
  lemma ZeroOverrideDropped(profile: AromaTableProfile, i: nat)
    requires profile.records.Some? && i < |profile.records.value|
    requires profile.records.value[i].fd == Num(0.0)
    ensures OverrideRecords(profile)[i].fd.None?
    ensures OverrideRecords(profile.(records := Some(profile.records.value[i := profile.records.value[i].(fd := Undefined)])))
         == OverrideRecords(profile)
  {
    var rs := profile.records.value;
    var p2 := profile.(records := Some(rs[i := rs[i].(fd := Undefined)]));
    var a, b := OverrideRecords(p2), OverrideRecords(profile);
    assert |a| == |b|;
    forall j | 0 <= j < |a| ensures a[j] == b[j] {
      if j == i {
        assert a[j].fd.None? && b[j].fd.None?;
      }
    }
  }

  // ---------------------------------------------------------------------
  // fetchIngredientDotGraphRows
  // ---------------------------------------------------------------------

  function MoleculeIds(mols: seq<Molecule>): (ids: seq<int>)
    ensures |ids| == |mols|
    ensures forall i :: 0 <= i < |mols| ==> ids[i] == mols[i].moleculeId
  {
    seq(|mols|, i requires 0 <= i < |mols| => mols[i].moleculeId)
  }

  function TypeNames(records: seq<AromaRecord>): (names: seq<string>)
    ensures |names| == |records|
    ensures forall i :: 0 <= i < |records| ==> names[i] == records[i].typeName
  {
    seq(|records|, i requires 0 <= i < |records| => records[i].typeName)
  }

  /** The molecule ids of the records of type `t`, concatenated in record order. */
  function MoleculesOfType(records: seq<AromaRecord>, t: string): seq<int> {
    if records == [] then []
    else
      var last := records[|records| - 1];
      MoleculesOfType(records[..|records| - 1], t) + (if last.typeName == t then MoleculeIds(last.molecules) else [])
  }

  /** `aromaTypeToMolecules` after the `forEach` over `records`. */
  function MoleculeMap(records: seq<AromaRecord>): map<string, seq<int>> {
    if records == [] then map[]
    else
      var m := MoleculeMap(records[..|records| - 1]);
      var last := records[|records| - 1];
      m[last.typeName := (if last.typeName in m then m[last.typeName] else []) + MoleculeIds(last.molecules)]
  }

  /** The map has a key for each record type, holding the ids of that type's molecules in record order. */
  lemma {:induction false} MoleculeMapContents(records: seq<AromaRecord>)
    ensures forall t :: t in MoleculeMap(records) <==> t in TypeNames(records)
    ensures forall t :: t in MoleculeMap(records) ==> MoleculeMap(records)[t] == MoleculesOfType(records, t)
  {
    if records != [] {
      var init := records[..|records| - 1];
      MoleculeMapContents(init);
      assert TypeNames(records) == TypeNames(init) + [records[|records| - 1].typeName];
      forall t | t !in MoleculeMap(init) ensures MoleculesOfType(init, t) == [] {
        MoleculesOfTypeAbsent(init, t);
      }
    }
  }

  /** No record of type `t`, no molecules for it. */
  lemma {:induction false} MoleculesOfTypeAbsent(records: seq<AromaRecord>, t: string)
    requires t !in TypeNames(records)
    ensures MoleculesOfType(records, t) == []
  {
    if records != [] {
      var init := records[..|records| - 1];
      assert TypeNames(records) == TypeNames(init) + [records[|records| - 1].typeName];
      MoleculesOfTypeAbsent(init, t);
    }
  }

  /** Where `fetchIngredientDotGraphRows` puts the row: its `rowPosition` decides. */
  function RouteDotGraphRow(row: DotGraphRow): (p: SetDotGraphRowsPayload)
    ensures p.dotGraphOtherIngredients.None?
    ensures p.dotGraphMainIngredient.Some? <==> row.rowPosition == -1
    ensures p.addDotGraphOtherIngredient.Some? <==> row.rowPosition > -1
    ensures p.dotGraphMainIngredient.Some? ==> p.dotGraphMainIngredient.value == row
    ensures p.addDotGraphOtherIngredient.Some? ==> p.addDotGraphOtherIngredient.value == row
  {
    SetDotGraphRowsPayload(
      if row.rowPosition == -1 then Some(row) else None,
      None,
      if row.rowPosition > -1 then Some(row) else None)
  }

  /**
    * The `forEach` of `fetchIngredientDotGraphRows`: each record's type is
    * pushed unless listed, and its molecule ids are appended under its type.
    */
  method GroupByType(records: seq<AromaRecord>) returns (types: seq<string>, molecules: map<string, seq<int>>)
    ensures types == Dedupe(TypeNames(records))
    ensures molecules == MoleculeMap(records)
  {
    types, molecules := [], map[];
    var i := 0;
    while i < |records|
      invariant 0 <= i <= |records|
      invariant types == Dedupe(TypeNames(records[..i]))
      invariant molecules == MoleculeMap(records[..i])
    {
      var t := records[i].typeName;
      GroupByTypeStep(records, i);
      if t !in types {
        types := types + [t];
      }
      molecules := molecules[t := (if t in molecules then molecules[t] else []) + MoleculeIds(records[i].molecules)];
      i := i + 1;
    }
    assert records[..i] == records;
  }

  /** One more record: its type is listed unless it already is, and its ids are appended under it. */
  lemma GroupByTypeStep(records: seq<AromaRecord>, i: nat)
    requires i < |records|
    ensures var t := records[i].typeName;
      var types := Dedupe(TypeNames(records[..i]));
      var m := MoleculeMap(records[..i]);
      && Dedupe(TypeNames(records[..i + 1])) == (if t in types then types else types + [t])
      && MoleculeMap(records[..i + 1]) == m[t := (if t in m then m[t] else []) + MoleculeIds(records[i].molecules)]
  {
    var prefix := records[..i + 1];
    assert prefix[..i] == records[..i];
    assert TypeNames(prefix)[..i] == TypeNames(records[..i]);
  }

  /**
    * `fetchIngredientDotGraphRows(get, version, ingredient)`: records that
    * are missing are fetched (the server's answer is `response`) when the
    * ingredient has an id; then each record's type is listed once and its
    * molecule ids are appended under its type; the row is routed by position.
    */
  method FetchIngredientDotGraphRows(ingredient: DotGraphRow, response: Option<seq<ProfileRecord>>)
    returns (row: DotGraphRow, result: SetDotGraphRowsPayload)
    ensures ingredient.aromaRecords.Some? ==> row.aromaRecords == ingredient.aromaRecords
    ensures ingredient.aromaRecords.None? && ingredient.id == 0 ==> row.aromaRecords.None?
    ensures ingredient.aromaRecords.None? && ingredient.id != 0 ==>
      row.aromaRecords.Some?
      && multiset(row.aromaRecords.value)
         == multiset(MapRecords(ingredient.id, if response.Some? then response.value else []))
    ensures var records := if row.aromaRecords.Some? then row.aromaRecords.value else [];
      && row.aromaTypes == Dedupe(TypeNames(records))
      && row.aromaTypeToMolecules == MoleculeMap(records)
    ensures row.id == ingredient.id && row.name == ingredient.name && row.rowPosition == ingredient.rowPosition
    ensures result == RouteDotGraphRow(row)
  {
    row := ingredient.(aromaTypes := [], aromaTypeToMolecules := map[]);
    if row.aromaRecords.None? && row.id != 0 {
      var fetched := FetchIngredientAromaVizRows(row.id, None, response);
      row := row.(aromaRecords := Some(fetched.aromaVizRows));
    }
    var records := if row.aromaRecords.Some? then row.aromaRecords.value else [];
    var types, molecules := GroupByType(records);
    row := row.(aromaTypes := types, aromaTypeToMolecules := molecules);
    result := RouteDotGraphRow(row);
  }
}
