/**
 * `WidgetCollectionParameters`: the parameters of a classic widget collection
 * node. Its storage field name falls back to `items`, and its primary type is
 * fixed to `cq:WidgetCollection` and cannot be changed.
 */
module WidgetCollection {

  import opened Wrappers
  import opened Text

  const PRIMARY_TYPE: string := "cq:WidgetCollection"
  const DEFAULT_FIELD_NAME: string := "items"

  /** Why `setPrimaryType` refuses: Java's `UnsupportedOperationException`. */
  datatype UnsupportedOperation = UnsupportedOperation(message: string)

  class WidgetCollectionParameters {
    /** The inherited, possibly null, `fieldName` field. */
    var fieldName: Option<string>
    /** The inherited `primaryType` field; the overriding getter never reads it. */
    var primaryType: Option<string>

    constructor ()
      ensures fieldName.None? && primaryType.None?
    {
      fieldName, primaryType := None, None;
    }

    /** The inherited `setFieldName`. */
    method SetFieldName(name: Option<string>)
      modifies this
      ensures fieldName == name && primaryType == old(primaryType)
    {
      fieldName := name;
    }

    /**
     * `getFieldName()`: `items` when the stored name is null or empty after
     * trimming, the stored name otherwise; never empty.
     */
    function FieldName(): (r: string)
      reads this
      ensures r != []
      ensures (fieldName.None? || IsEmptyTrimmed(fieldName.value)) ==> r == DEFAULT_FIELD_NAME
      ensures fieldName.Some? && !IsEmptyTrimmed(fieldName.value) ==> r == fieldName.value
      ensures r == DEFAULT_FIELD_NAME || (fieldName.Some? && r == fieldName.value && exists i :: 0 <= i < |r| && r[i] as int > 32)
    {
      if fieldName.None? || IsEmptyTrimmed(fieldName.value) then DEFAULT_FIELD_NAME else fieldName.value
    }

    /** `getPrimaryType()`: always `cq:WidgetCollection`, whatever the object holds. */
    function PrimaryType(): (r: string)
      ensures r == "cq:WidgetCollection"
    {
      PRIMARY_TYPE
    }

    /** `setPrimaryType(…)`: always fails; the method modifies nothing, so the primary type stays. */
    method SetPrimaryType(primaryType: string) returns (r: Result<(), UnsupportedOperation>)
      ensures r.Failure?
      ensures PrimaryType() == "cq:WidgetCollection"
    {
      r := Failure(UnsupportedOperation("PrimaryType is Static for TagInputFieldWidget"));
    }
  }

  /**
   * Setting any field name and then reading it back never yields "": a name with
   * a character above U+0020 reads back unchanged, any other (including one of
   * only spaces) reads back as `items`.
   */
  method FieldNameRoundTrip(name: string) returns (read: string)
    ensures read != []
    ensures !IsEmptyTrimmed(name) ==> read == name
    ensures IsEmptyTrimmed(name) ==> read == "items"
  {
    var p := new WidgetCollectionParameters();
    p.SetFieldName(Some(name));
    var r := p.SetPrimaryType("nt:unstructured");
    assert p.PrimaryType() == "cq:WidgetCollection";
    read := p.FieldName();
  }
}
