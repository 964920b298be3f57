/** The persisted device association (data/DeviceAssociationDataStoreManager.kt): one protobuf record,
    whose default instance means "no association". */
module AssociationStore {
  import opened Wrappers
  import opened Errors
  import opened Models

  /** DocumentProto: proto3 strings, "" when unset. */
  datatype DocumentProto = DocumentProto(docType: string, number: string, country: string)

  /** DeviceAssociationProto. The message-typed `document` field has presence, so an unset document
      differs from a set empty one. */
  datatype AssociationProto = AssociationProto(token: string, document: Option<DocumentProto>, createdAt: string, idToken: string)

  const DefaultDocument: DocumentProto := DocumentProto("", "", "")

  /** `DeviceAssociationProto.getDefaultInstance()`. */
  const DefaultRecord: AssociationProto := AssociationProto("", None, "", "")

  /** The NullPointerException the protobuf builder throws for a null setter argument. */
  const NullArgument: Throwable := Runtime(NullPointerException, None)

  /** The `updateData` transform of `saveDeviceAssociation`: token, document and creation time are
      overwritten on the current record, every other field is kept. The document's type and
      country are copied without defaults, so a null one makes the builder throw; `updateData` then
      aborts and the record stays as it was. */
  function SaveUpdate(current: AssociationProto, association: DeviceAssociation): (r: Result<AssociationProto, Throwable>)
    ensures r.Err? <==> association.document.docType.None? || association.document.country.None?
    ensures r.Err? ==> r.error == NullArgument
    ensures r.Ok? ==> r.value.token == association.token && r.value.createdAt == association.createdAt
    ensures r.Ok? ==> r.value.document == Some(DocumentProto(association.document.docType.value,
                                                             association.document.number,
                                                             association.document.country.value))
    ensures r.Ok? ==> r.value.idToken == current.idToken
  {
    var d := association.document;
    if d.docType.None? || d.country.None? then Err(NullArgument)
    else Ok(current.(token := association.token,
                     document := Some(DocumentProto(d.docType.value, d.number, d.country.value)),
                     createdAt := association.createdAt))
  }

  /** The mapping of `getDeviceAssociation`: the default record is no association; any other record
      is read field by field, an unset document reading as the default document. */
  function ToAssociation(record: AssociationProto): (r: Option<DeviceAssociation>)
    ensures r.None? <==> record == DefaultRecord
    ensures r.Some? ==> r.value.token == record.token && r.value.createdAt == record.createdAt && r.value.idToken == record.idToken
  {
    if record == DefaultRecord then None
    else
      var doc := record.document.GetOr(DefaultDocument);
      Some(DeviceAssociation(record.token, Document(doc.number, Some(doc.docType), Some(doc.country)),
                             record.createdAt, record.idToken))
  }

  /** A successful save never leaves the default record behind. */
  lemma SavedRecordIsNotDefault(current: AssociationProto, association: DeviceAssociation)
    requires SaveUpdate(current, association).Ok?
    ensures SaveUpdate(current, association).value != DefaultRecord
  {
  }

  /** Saving and then reading gives back the saved token, document and creation time, and the
      previous record's id token. */
  lemma SaveThenGet(current: AssociationProto, association: DeviceAssociation)
    requires association.document.docType.Some? && association.document.country.Some?
    ensures SaveUpdate(current, association).Ok?
    ensures ToAssociation(SaveUpdate(current, association).value) ==
              Some(DeviceAssociation(association.token, association.document, association.createdAt, current.idToken))
  {
  }

  /** The transform of `removeDeviceAssociation`: the default instance, whatever the record was. */
  function RemoveUpdate(current: AssociationProto): AssociationProto {
    DefaultRecord
  }

  /** Reading is null after a removal, and removing again changes nothing. */
  lemma RemoveThenGet(current: AssociationProto)
    ensures ToAssociation(RemoveUpdate(current)).None?
    ensures RemoveUpdate(RemoveUpdate(current)) == RemoveUpdate(current)
  {
  }

  /** The store behind `Context.deviceAssociationStore`. */
  class DeviceAssociationStore {
    var record: AssociationProto

    constructor(initial: AssociationProto)
      ensures record == initial
    {
      record := initial;
    }

    /** `saveDeviceAssociation`: on a throw inside the transform the record is unchanged and the
        exception propagates. */
    method Save(association: DeviceAssociation) returns (outcome: Result<(), Throwable>)
      modifies this
      ensures SaveUpdate(old(record), association).Ok? ==>
                outcome == Ok(()) && record == SaveUpdate(old(record), association).value
      ensures SaveUpdate(old(record), association).Err? ==>
                outcome == Err(SaveUpdate(old(record), association).error) && record == old(record)
    {
      var updated := SaveUpdate(record, association);
      if updated.Ok? {
        record := updated.value;
        outcome := Ok(());
      } else {
        outcome := Err(updated.error);
      }
    }

    /** `getDeviceAssociation`, the current value of the flow. */
    method Get() returns (association: Option<DeviceAssociation>)
      ensures association == ToAssociation(record)
    {
      association := ToAssociation(record);
    }

    /** `removeDeviceAssociation`: idempotent, since the result does not depend on the old record. */
    method Remove()
      modifies this
      ensures record == DefaultRecord
      ensures record == RemoveUpdate(old(record))
    {
      record := RemoveUpdate(record);
    }
  }
}
