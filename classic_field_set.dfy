/**
 * The classic `DialogFieldSetWidget`: an immutable node whose xtype is always
 * `dialogfieldset` and whose primary type is always `cq:Widget`, carrying five
 * fieldset settings next to the attributes it hands to its `AbstractWidget` base.
 */
module ClassicFieldSet {

  import opened Wrappers

  const XTYPE: string := "dialogfieldset"
  const PRIMARY_TYPE: string := "cq:Widget"

  /**
   * The `@Widget` binding on the class: the annotation it serves, its maker and
   * its xtype. The maker is the classic `dialog.maker.impl.DialogFieldSetWidgetMaker`,
   * not the touch-UI maker of the same simple name.
   */
  datatype WidgetBinding = WidgetBinding(annotationClass: string, makerClass: string, xtype: string)

  function Binding(): (b: WidgetBinding)
    ensures b.annotationClass == "DialogFieldSet"
    ensures b.makerClass == "dialog.maker.impl.DialogFieldSetWidgetMaker"
    ensures b.xtype == "dialogfieldset"
  {
    WidgetBinding("DialogFieldSet", "dialog.maker.impl.DialogFieldSetWidgetMaker", XTYPE)
  }

  /** The arguments the constructor passes to the `AbstractWidget` base that this model names. */
  datatype WidgetBase<E> = WidgetBase(
    xtype: string,
    fieldLabel: Option<string>,
    fieldDescription: Option<string>,
    hideLabel: bool,
    primaryType: string,
    fieldName: Option<string>,
    additionalProperties: Option<map<string, string>>,
    containedElements: seq<E>)

  /** All fields are final and no setter exists: a datatype value. */
  datatype DialogFieldSetWidget<E> = DialogFieldSetWidget(
    base: WidgetBase<E>,
    collapseFirst: bool,
    collapsible: bool,
    collapsed: bool,
    border: bool,
    title: Option<string>)
  {
    function IsCollapseFirst(): bool { collapseFirst }
    function IsCollapsible(): bool { collapsible }
    function IsCollapsed(): bool { collapsed }
    function IsBorder(): bool { border }
    function Title(): Option<string> { title }
    function XType(): string { base.xtype }
    function PrimaryType(): string { base.primaryType }
  }

  /** The constructor: every getter returns its argument; xtype and primary type are constants. */
  function NewDialogFieldSetWidget<E>(
    collapseFirst: bool, collapsible: bool, collapsed: bool, border: bool, title: Option<string>,
    fieldLabel: Option<string>, fieldDescription: Option<string>, hideLabel: bool, fieldName: Option<string>,
    additionalProperties: Option<map<string, string>>, containedElements: seq<E>): (w: DialogFieldSetWidget<E>)
    ensures w.XType() == "dialogfieldset" && w.PrimaryType() == "cq:Widget"
    ensures w.IsCollapseFirst() == collapseFirst && w.IsCollapsible() == collapsible
    ensures w.IsCollapsed() == collapsed && w.IsBorder() == border && w.Title() == title
    ensures w.base.fieldLabel == fieldLabel && w.base.fieldDescription == fieldDescription
    ensures w.base.hideLabel == hideLabel && w.base.fieldName == fieldName
    ensures w.base.additionalProperties == additionalProperties
    ensures w.base.containedElements == containedElements
  {
    DialogFieldSetWidget(
      WidgetBase(XTYPE, fieldLabel, fieldDescription, hideLabel, PRIMARY_TYPE, fieldName,
                 additionalProperties, containedElements),
      collapseFirst, collapsible, collapsed, border, title)
  }

}
