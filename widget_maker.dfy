/**
 * `AbstractWidgetMaker`: the pre-processing every classic widget maker shares.
 * Before the kind-specific maker runs, a fresh parameters object is filled with
 * the widget's name, storage field name, label, description, flags, default
 * value, additional properties and listeners, each derived from the governing
 * `@DialogField` and the member it annotates.
 */
module WidgetMaker {

  import opened Wrappers
  import opened Text
  import opened DialogModel

  // ---------------------------------------------------------------------------
  // Member kind and structural name

  /** `isField()`: the member is a `CtField`, i.e. not a method. */
  predicate IsField(m: Member)
    ensures IsField(m) <==> m.kind != MethodMember
  {
    m.kind == FieldMember
  }

  /** `isMethod()`: always the negation of `isField()`. */
  predicate IsMethod(m: Member)
    ensures IsMethod(m) <==> !IsField(m)
    ensures IsMethod(m) <==> m.kind == MethodMember
  {
    !IsField(m)
  }

  /** How many characters of accessor prefix `getName()` strips: `is` is tested before `get`. */
  function AccessorPrefixLength(name: string): (n: nat)
    ensures n <= |name|
    ensures n == 2 <==> StartsWith(name, "is")
    ensures n == 3 <==> !StartsWith(name, "is") && StartsWith(name, "get")
    ensures n == 0 <==> !StartsWith(name, "is") && !StartsWith(name, "get")
  {
    if StartsWith(name, "is") then 2
    else if StartsWith(name, "get") then 3
    else 0
  }

  /**
   * `getName()`: a field keeps its declared name; a method loses a leading
   * `is` or `get` and has its first remaining character lower-cased.
   */
  function StructuralName(m: Member): (r: string)
    ensures IsField(m) ==> r == m.name
    ensures IsMethod(m) ==> |r| == |m.name| - AccessorPrefixLength(m.name)
    ensures IsMethod(m) ==> forall i :: 0 < i < |r| ==> r[i] == m.name[AccessorPrefixLength(m.name) + i]
    ensures IsMethod(m) && |r| > 0 ==> r[0] == ToLower(m.name[AccessorPrefixLength(m.name)])
  {
    if IsField(m) then m.name
    else Uncapitalise(m.name[AccessorPrefixLength(m.name)..])
  }

  /** An accessor `getX…` yields `x…`, whatever follows the `X`. */
  lemma GetterName(m: Member, suffix: string)
    requires m.kind == MethodMember && m.name == "get" + suffix
    ensures StructuralName(m) == Uncapitalise(suffix)
  {
    assert m.name[0] == 'g';
    assert !StartsWith(m.name, "is");
    assert m.name[..3] == "get";
    assert m.name[3..] == suffix;
  }

  /** An accessor `isX…` yields `x…`, whatever follows the `X`. */
  lemma IsAccessorName(m: Member, suffix: string)
    requires m.kind == MethodMember && m.name == "is" + suffix
    ensures StructuralName(m) == Uncapitalise(suffix)
  {
    assert m.name[..2] == "is";
    assert m.name[2..] == suffix;
  }

  /** `is` is tested before `get`, so `issueDate` becomes `sueDate`, not `issueDate` unchanged. */
  lemma IsWinsOverLaterLetters(m: Member)
    requires m.kind == MethodMember && m.name == "issueDate"
    ensures StructuralName(m) == "sueDate"
  {
    assert m.name == "is" + "sueDate";
    IsAccessorName(m, "sueDate");
  }

  /** A method named just `get` has the empty structural name. */
  lemma BareGetIsEmpty(m: Member)
    requires m.kind == MethodMember && m.name == "get"
    ensures StructuralName(m) == ""
  {
    assert m.name == "get" + "";
    GetterName(m, "");
  }

  /** Without an accessor prefix a method only has its first character lower-cased; a field is never changed. */
  lemma NoAccessorPrefix(m: Member)
    requires m.kind == FieldMember || (!StartsWith(m.name, "is") && !StartsWith(m.name, "get"))
    ensures m.kind == MethodMember ==> StructuralName(m) == Uncapitalise(m.name)
    ensures m.kind == FieldMember ==> StructuralName(m) == m.name
  {
    assert m.name[0..] == m.name;
  }

  // ---------------------------------------------------------------------------
  // Name, storage field name, label, description, default value

  /** The "empty override means null" rule shared by label, description and default value. */
  function NonEmptyOrNull(s: string): (r: Option<string>)
    ensures r.Some? <==> IsNotEmpty(s)
    ensures r.Some? ==> r.value == s
  {
    if IsNotEmpty(s) then Some(s) else None
  }

  /** `getNameForField()`: the override, else the structural name, with `./` in dot-slash mode. */
  function NameForField(p: MakerParameters): (r: string)
    ensures IsNotEmpty(p.dialogFieldConfig.settings.name) ==> r == p.dialogFieldConfig.settings.name
    ensures !IsNotEmpty(p.dialogFieldConfig.settings.name) && p.useDotSlashInName ==>
              r == "./" + StructuralName(p.CtMember())
    ensures !IsNotEmpty(p.dialogFieldConfig.settings.name) && !p.useDotSlashInName ==>
              r == StructuralName(p.CtMember())
  {
    var overrideName := p.dialogFieldConfig.settings.name;
    if IsNotEmpty(overrideName) then overrideName
    else if p.useDotSlashInName then "./" + StructuralName(p.CtMember())
    else StructuralName(p.CtMember())
  }

  /** `getFieldNameForField()`: the override, else the structural name; never dot-slash prefixed. */
  function FieldNameForField(p: MakerParameters): (r: string)
    ensures IsNotEmpty(p.dialogFieldConfig.settings.fieldName) ==> r == p.dialogFieldConfig.settings.fieldName
    ensures !IsNotEmpty(p.dialogFieldConfig.settings.fieldName) ==> r == StructuralName(p.CtMember())
  {
    var overrideFieldName := p.dialogFieldConfig.settings.fieldName;
    if IsNotEmpty(overrideFieldName) then overrideFieldName else StructuralName(p.CtMember())
  }

  /** A non-empty name override is used verbatim in either dot-slash mode. */
  lemma NameOverrideIgnoresDotSlash(p: MakerParameters, mode: bool)
    requires IsNotEmpty(p.dialogFieldConfig.settings.name)
    ensures NameForField(p.(useDotSlashInName := mode)) == NameForField(p) == p.dialogFieldConfig.settings.name
  {
  }

  /**
   * Dot-slash mode only ever affects the name: the storage field name is the same
   * in both modes, and without overrides the name is the field name with `./` in front.
   */
  lemma DotSlashOnlyPrefixesName(p: MakerParameters)
    ensures FieldNameForField(p.(useDotSlashInName := true)) == FieldNameForField(p.(useDotSlashInName := false))
    ensures !IsNotEmpty(p.dialogFieldConfig.settings.name) && !IsNotEmpty(p.dialogFieldConfig.settings.fieldName) ==>
              NameForField(p.(useDotSlashInName := true)) == "./" + FieldNameForField(p)
              && NameForField(p.(useDotSlashInName := false)) == FieldNameForField(p)
  {
  }

  /** `getFieldLabelForField()` */
  function FieldLabelForField(p: MakerParameters): (r: Option<string>)
    ensures r.Some? <==> IsNotEmpty(p.dialogFieldConfig.settings.fieldLabel)
    ensures r.Some? ==> r.value == p.dialogFieldConfig.settings.fieldLabel
  {
    NonEmptyOrNull(p.dialogFieldConfig.settings.fieldLabel)
  }

  /** `getFieldDescriptionForField()` */
  function FieldDescriptionForField(p: MakerParameters): (r: Option<string>)
    ensures r.Some? <==> IsNotEmpty(p.dialogFieldConfig.settings.fieldDescription)
    ensures r.Some? ==> r.value == p.dialogFieldConfig.settings.fieldDescription
  {
    NonEmptyOrNull(p.dialogFieldConfig.settings.fieldDescription)
  }

  /** `getDefaultValueForField()` */
  function DefaultValueForField(p: MakerParameters): (r: Option<string>)
    ensures r.Some? <==> IsNotEmpty(p.dialogFieldConfig.settings.defaultValue)
    ensures r.Some? ==> r.value == p.dialogFieldConfig.settings.defaultValue
  {
    NonEmptyOrNull(p.dialogFieldConfig.settings.defaultValue)
  }

  // ---------------------------------------------------------------------------
  // Listeners and additional properties

  /** `getListeners()`: null exactly when no listener is declared, else all of them in order. */
  function ListenersForField(p: MakerParameters): (r: Option<seq<Listener>>)
    ensures r.None? <==> |p.dialogFieldConfig.settings.listeners| == 0
    ensures r.Some? ==> r.value == p.dialogFieldConfig.settings.listeners
  {
    var listeners := p.dialogFieldConfig.settings.listeners;
    if |listeners| > 0 then Some(listeners) else None
  }

  /** A property that the classic dialog renders: every one not reserved for the touch UI. */
  predicate RenderedInClassic(prop: Property)
    ensures RenderedInClassic(prop) <==> prop.renderIn != TouchUI
  {
    prop.renderIn == Classic || prop.renderIn == Both
  }

  /** `props[i]` is the last classic-rendered property named `k`. */
  ghost predicate LastClassicNamed(props: seq<Property>, k: string, i: int) {
    && 0 <= i < |props|
    && RenderedInClassic(props[i])
    && props[i].name == k
    && forall j :: i < j < |props| && RenderedInClassic(props[j]) ==> props[j].name != k
  }

  /**
   * The map `put` builds from the classic-rendered properties, in order: its keys
   * are exactly their names, and each key holds the value of the LAST such
   * property with that name.
   */
  function ClassicProperties(props: seq<Property>): (m: map<string, string>)
    ensures forall k :: k in m <==> exists i :: 0 <= i < |props| && RenderedInClassic(props[i]) && props[i].name == k
    ensures forall k :: k in m ==> exists i :: LastClassicNamed(props, k, i) && m[k] == props[i].value
  {
    if props == [] then map[]
    else
      var init := props[..|props| - 1];
      var last := props[|props| - 1];
      var m0 := ClassicProperties(init);
      var m := if RenderedInClassic(last) then m0[last.name := last.value] else m0;
      assert forall i :: 0 <= i < |init| ==> init[i] == props[i];
      ClassicPropertiesStep(props, m0, m);
      m
  }

  /** One `put` (or none) keeps the last-wins description of the map. */
  lemma ClassicPropertiesStep(props: seq<Property>, m0: map<string, string>, m: map<string, string>)
    requires props != []
    requires var init := props[..|props| - 1];
             forall k :: k in m0 ==> exists i :: LastClassicNamed(init, k, i) && m0[k] == init[i].value
    requires var last := props[|props| - 1];
             m == if RenderedInClassic(last) then m0[last.name := last.value] else m0
    ensures forall k :: k in m ==> exists i :: LastClassicNamed(props, k, i) && m[k] == props[i].value
  {
    var init, last := props[..|props| - 1], props[|props| - 1];
    forall k | k in m
      ensures exists i :: LastClassicNamed(props, k, i) && m[k] == props[i].value
    {
      if RenderedInClassic(last) && k == last.name {
        assert LastClassicNamed(props, k, |props| - 1);
      } else {
        var i :| LastClassicNamed(init, k, i) && m0[k] == init[i].value;
        assert init[i] == props[i];
        assert LastClassicNamed(props, k, i);
      }
    }
  }

  /**
   * `getAdditionalPropertiesForField()`: null when no property is declared;
   * otherwise the map of the classic-rendered ones, later names overwriting
   * earlier ones (possibly empty).
   */
  method AdditionalPropertiesForField(p: MakerParameters) returns (r: Option<map<string, string>>)
    ensures r.None? <==> |p.dialogFieldConfig.settings.additionalProperties| == 0
    ensures r.Some? ==> r.value == ClassicProperties(p.dialogFieldConfig.settings.additionalProperties)
  {
    var props := p.dialogFieldConfig.settings.additionalProperties;
    if |props| > 0 {
      var properties: map<string, string> := map[];
      for n := 0 to |props|
        invariant properties == ClassicProperties(props[..n])
      {
        var curProperty := props[n];
        if RenderedInClassic(curProperty) {
          properties := properties[curProperty.name := curProperty.value];
        }
        assert props[..n + 1][..n] == props[..n];
      }
      assert props[..|props|] == props;
      return Some(properties);
    }
    return None;
  }

  // ---------------------------------------------------------------------------
  // make(): filling a fresh parameters object

  /** `WidgetParameters`: the mutable bundle a kind-specific maker consumes; fresh, everything unset. */
  class WidgetParameters {
    var name: Option<string>
    var fieldName: Option<string>
    var fieldLabel: Option<string>
    var fieldDescription: Option<string>
    var allowBlank: bool
    var additionalProperties: Option<map<string, string>>
    var defaultValue: Option<string>
    var hideLabel: bool
    var listeners: Option<seq<Listener>>
    var disabled: bool

    constructor ()
      ensures name.None? && fieldName.None? && fieldLabel.None? && fieldDescription.None?
      ensures !allowBlank && additionalProperties.None? && defaultValue.None?
      ensures !hideLabel && listeners.None? && !disabled
    {
      name, fieldName, fieldLabel, fieldDescription := None, None, None, None;
      allowBlank, additionalProperties, defaultValue := false, None, None;
      hideLabel, listeners, disabled := false, None, false;
    }
  }

  /**
   * `make()` up to the hand-off to the kind-specific maker: a fresh parameters
   * object receives, through its ten setters, every derived value.
   */
  method PrepareParameters(p: MakerParameters) returns (wp: WidgetParameters)
    ensures fresh(wp)
    ensures wp.name == Some(NameForField(p))
    ensures wp.fieldName == Some(FieldNameForField(p))
    ensures wp.fieldLabel == FieldLabelForField(p)
    ensures wp.fieldDescription == FieldDescriptionForField(p)
    ensures wp.allowBlank == !p.dialogFieldConfig.settings.required
    ensures wp.additionalProperties.None? <==> |p.dialogFieldConfig.settings.additionalProperties| == 0
    ensures wp.additionalProperties.Some? ==>
              wp.additionalProperties.value == ClassicProperties(p.dialogFieldConfig.settings.additionalProperties)
    ensures wp.defaultValue == DefaultValueForField(p)
    ensures wp.hideLabel == p.dialogFieldConfig.settings.hideLabel
    ensures wp.listeners == ListenersForField(p)
    ensures wp.disabled == p.dialogFieldConfig.settings.disabled
  {
    wp := new WidgetParameters();
    wp.name := Some(NameForField(p));
    wp.fieldName := Some(FieldNameForField(p));
    wp.fieldLabel := FieldLabelForField(p);
    wp.fieldDescription := FieldDescriptionForField(p);
    wp.allowBlank := !p.dialogFieldConfig.settings.required;
    wp.additionalProperties := AdditionalPropertiesForField(p);
    wp.defaultValue := DefaultValueForField(p);
    wp.hideLabel := p.dialogFieldConfig.settings.hideLabel;
    wp.listeners := ListenersForField(p);
    wp.disabled := p.dialogFieldConfig.settings.disabled;
  }
}
