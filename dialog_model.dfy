/**
 * The inputs the widget makers read: class members with their annotations, the
 * normalised `DialogFieldConfig`, and the maker parameters handed to each maker.
 * Reflection (javassist `CtMember`, `Class`) is replaced by plain values.
 */
module DialogModel {

  import opened Wrappers

  /** `Property.RenderValue`: which dialog flavour an additional property is rendered in. */
  datatype RenderValue = Classic | TouchUI | Both

  /** One `@Property(name, value, renderIn)` of a `@DialogField`. */
  datatype Property = Property(name: string, value: string, renderIn: RenderValue)

  /** One `@Listener(name, value)`: an event name bound to a handler. */
  datatype Listener = Listener(name: string, value: string)

  /** The values of a `@DialogField` annotation. Unset strings are "". */
  datatype DialogFieldSettings = DialogFieldSettings(
    name: string,
    fieldName: string,
    fieldLabel: string,
    fieldDescription: string,
    required: bool,
    additionalProperties: seq<Property>,
    defaultValue: string,
    hideLabel: bool,
    listeners: seq<Listener>,
    disabled: bool,
    suppressTouchUI: bool,
    ranking: real)

  /** `CtField` versus `CtMethod`. */
  datatype MemberKind = FieldMember | MethodMember

  /**
   * A class member as the makers see it: its kind, its declared name, the name of
   * its declaring class, whether it carries `@IgnoreDialogField`, and its own
   * `@DialogField` if any.
   */
  datatype Member = Member(
    kind: MemberKind,
    name: string,
    declaringClass: string,
    ignored: bool,
    dialogField: Option<DialogFieldSettings>)

  /** `DialogFieldConfig`: the governing annotation values together with the member they annotate. */
  datatype DialogFieldConfig = DialogFieldConfig(settings: DialogFieldSettings, member: Member)

  /** Identities of the shared collaborators a maker passes on: class loader, class pool, widget registry. */
  datatype Environment = Environment(classLoader: nat, classPool: nat, widgetRegistry: nat)

  /**
   * `WidgetMakerParameters` / `TouchUIWidgetMakerParameters`: the governing config,
   * the class that holds the member, the shared collaborators and the dot-slash mode.
   */
  datatype MakerParameters = MakerParameters(
    dialogFieldConfig: DialogFieldConfig,
    containingClass: string,
    environment: Environment,
    useDotSlashInName: bool)
  {
    /** `getCtMember()`: the member the governing config annotates. */
    function CtMember(): Member {
      dialogFieldConfig.member
    }
  }
}
