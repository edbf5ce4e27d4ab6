# Widget generation engine: naming and assembly rules

This project models, in Dafny, the part of the CQ component plugin that turns
annotated class members into dialog widgets:

- the parameter pre-processing every classic widget maker shares
  (`AbstractWidgetMaker`): the widget name, the storage field name, the
  structural name derived from a field or an `is`/`get` accessor, the
  "empty override means null" rule, `allowBlank = !required`, the
  classic-only additional properties and the listeners;
- the touch-UI composite `DialogFieldSetWidgetMaker`: the walk over the
  fieldset type's fields and then methods, the skipping rules, child
  parameters built in dot-slash mode with the parent's collaborators, the
  ranking copied onto each child, the name-prefix rewrite and the stable sort;
- the small records `WidgetCollectionParameters` (field name defaulting to
  `items`, fixed primary type `cq:WidgetCollection`) and the classic
  `DialogFieldSetWidget` (xtype `dialogfieldset`, primary type `cq:Widget`).

Files: `wrappers.dfy` (Option, Result), `text.dfy` (the `StringUtils`
operations used), `dialog_model.dfy` (members, annotations, configs, maker
parameters), `widget_maker.dfy`, `touch_field_set.dfy`, `stable_sort.dfy`
(`Collections.sort`), `widget_collection.dfy`, `classic_field_set.dfy`.

Java `null` is `None`; exceptions are `Failure` values. Reflection is
replaced by a `Member` value (kind, name, declaring class, whether it carries
`@IgnoreDialogField`, its own `@DialogField`). The collaborators whose code
is not part of this model are parameters: the superclass config lookup
(`DialogUtil.getDialogFieldFromSuperClasses`), the class loader (as "can this
class be loaded"), the widget factory (`TouchUIWidgetFactory.make`) and the
element comparator (`TouchUIDialogElementComparator`), which is only required
to be a total preorder, as `Collections.sort` demands of any comparator.
`getCtMember()` of the maker parameters is taken to be the member of the
governing config; `WidgetMakerParameters` is not part of this model.

## Model

| member | source | states |
|---|---|---|
| Text.Uncapitalise | cq-component-annotations/src/main/java/com/citytechinc/cq/component/dialog/maker/AbstractWidgetMaker.java:240-244 | only the first character is lower-cased; length and every later character are kept |
| WidgetMaker.IsField | cq-component-annotations/src/main/java/com/citytechinc/cq/component/dialog/maker/AbstractWidgetMaker.java:254-260 | a member is a field exactly when it is not a method |
| WidgetMaker.IsMethod | cq-component-annotations/src/main/java/com/citytechinc/cq/component/dialog/maker/AbstractWidgetMaker.java:254-269 | `isMethod` is exactly the negation of `isField`, i.e. the member is a method |
| WidgetMaker.AccessorPrefixLength | cq-component-annotations/src/main/java/com/citytechinc/cq/component/dialog/maker/AbstractWidgetMaker.java:239-245 | 2 exactly when the name starts with `is`; 3 exactly when it does not but starts with `get`; else 0 |
| WidgetMaker.StructuralName | cq-component-annotations/src/main/java/com/citytechinc/cq/component/dialog/maker/AbstractWidgetMaker.java:234-247 | a field keeps its name; a method's name loses the accessor prefix and only the first remaining character is lower-cased |
| WidgetMaker.GetterName | cq-component-annotations/src/main/java/com/citytechinc/cq/component/dialog/maker/AbstractWidgetMaker.java:241-242 | for every suffix, a method `get`+suffix gets the name `uncapitalise(suffix)` |
| WidgetMaker.IsAccessorName | cq-component-annotations/src/main/java/com/citytechinc/cq/component/dialog/maker/AbstractWidgetMaker.java:239-240 | for every suffix, a method `is`+suffix gets the name `uncapitalise(suffix)` |
| WidgetMaker.IsWinsOverLaterLetters | cq-component-annotations/src/main/java/com/citytechinc/cq/component/dialog/maker/AbstractWidgetMaker.java:239-242 | `is` is tested first, so `issueDate` becomes `sueDate` |
| WidgetMaker.BareGetIsEmpty | cq-component-annotations/src/main/java/com/citytechinc/cq/component/dialog/maker/AbstractWidgetMaker.java:241-242 | a method named just `get` has the empty name |
| WidgetMaker.NoAccessorPrefix | cq-component-annotations/src/main/java/com/citytechinc/cq/component/dialog/maker/AbstractWidgetMaker.java:235-245 | for every method name starting with neither `is` nor `get`, the name with only its first letter lowered; every field name unchanged |
| WidgetMaker.NameForField | cq-component-annotations/src/main/java/com/citytechinc/cq/component/dialog/maker/AbstractWidgetMaker.java:96-106 | a non-empty override is the name; otherwise the structural name, with `./` in front in dot-slash mode |
| WidgetMaker.FieldNameForField | cq-component-annotations/src/main/java/com/citytechinc/cq/component/dialog/maker/AbstractWidgetMaker.java:113-121 | a non-empty override, else the structural name, never `./`-prefixed |
| WidgetMaker.NameOverrideIgnoresDotSlash | cq-component-annotations/src/main/java/com/citytechinc/cq/component/dialog/maker/AbstractWidgetMaker.java:96-101 | with a non-empty override the name is the override verbatim in either dot-slash mode |
| WidgetMaker.DotSlashOnlyPrefixesName | cq-component-annotations/src/main/java/com/citytechinc/cq/component/dialog/maker/AbstractWidgetMaker.java:102-121 | the field name does not depend on dot-slash mode; without overrides the name is `./` + field name in dot-slash mode and the field name otherwise |
| WidgetMaker.FieldLabelForField | cq-component-annotations/src/main/java/com/citytechinc/cq/component/dialog/maker/AbstractWidgetMaker.java:128-136 | the label is present exactly when the override is non-empty, and then equals it |
| WidgetMaker.FieldDescriptionForField | cq-component-annotations/src/main/java/com/citytechinc/cq/component/dialog/maker/AbstractWidgetMaker.java:143-151 | the description is present exactly when the override is non-empty, and then equals it |
| WidgetMaker.DefaultValueForField | cq-component-annotations/src/main/java/com/citytechinc/cq/component/dialog/maker/AbstractWidgetMaker.java:188-196 | the default value is present exactly when the override is non-empty, and then equals it |
| WidgetMaker.ListenersForField | cq-component-annotations/src/main/java/com/citytechinc/cq/component/dialog/maker/AbstractWidgetMaker.java:216-224 | null exactly when no listener is declared; otherwise all declared listeners in order |
| WidgetMaker.RenderedInClassic | cq-component-annotations/src/main/java/com/citytechinc/cq/component/dialog/maker/AbstractWidgetMaker.java:172 | a property is written to the classic dialog exactly when its render target is not TOUCHUI |
| WidgetMaker.ClassicProperties | cq-component-annotations/src/main/java/com/citytechinc/cq/component/dialog/maker/AbstractWidgetMaker.java:171-175 | keys are exactly the names of properties rendered in CLASSIC or BOTH; each key holds the value of the last such property with that name |
| WidgetMaker.AdditionalPropertiesForField | cq-component-annotations/src/main/java/com/citytechinc/cq/component/dialog/maker/AbstractWidgetMaker.java:167-181 | null exactly when no property is declared; otherwise the (possibly empty) map of classic-rendered properties, later ones overwriting |
| WidgetMaker.PrepareParameters | cq-component-annotations/src/main/java/com/citytechinc/cq/component/dialog/maker/AbstractWidgetMaker.java:59-75 | a fresh parameters object gets name, field name, label, description, `allowBlank = !required`, additional properties, default value, hideLabel, listeners and disabled as derived above |
| WidgetMaker.WidgetParameters.constructor | cq-component-annotations/src/main/java/com/citytechinc/cq/component/dialog/maker/AbstractWidgetMaker.java:63 | the freshly instantiated parameters object has every value unset |
| WidgetCollection.WidgetCollectionParameters.constructor | cq-component-maven-plugin/src/main/java/com/citytechinc/cq/component/dialog/widgetcollection/WidgetCollectionParameters.java:22 | a new object has no field name and no stored primary type |
| WidgetCollection.WidgetCollectionParameters.FieldName | cq-component-maven-plugin/src/main/java/com/citytechinc/cq/component/dialog/widgetcollection/WidgetCollectionParameters.java:37-42 | `items` when the stored name is null or empty after trimming (only characters up to U+0020), the stored name otherwise; never empty |
| WidgetCollection.WidgetCollectionParameters.PrimaryType | cq-component-maven-plugin/src/main/java/com/citytechinc/cq/component/dialog/widgetcollection/WidgetCollectionParameters.java:23-29 | always `cq:WidgetCollection`, independent of the object's state |
| WidgetCollection.WidgetCollectionParameters.SetPrimaryType | cq-component-maven-plugin/src/main/java/com/citytechinc/cq/component/dialog/widgetcollection/WidgetCollectionParameters.java:31-34 | always fails and changes nothing: the primary type stays `cq:WidgetCollection` |
| WidgetCollection.FieldNameRoundTrip | cq-component-maven-plugin/src/main/java/com/citytechinc/cq/component/dialog/widgetcollection/WidgetCollectionParameters.java:37-42 | a stored name with a character above U+0020 reads back unchanged, an empty or all-blank one reads back as `items`, and a refused `setPrimaryType` in between changes nothing |
| ClassicFieldSet.Binding | cq-component-maven-plugin/src/main/java/com/citytechinc/cq/component/dialog/impl/DialogFieldSetWidget.java:12-14 | the widget is bound to `DialogFieldSet` with the classic `dialog.maker.impl.DialogFieldSetWidgetMaker` and xtype `dialogfieldset` |
| ClassicFieldSet.NewDialogFieldSetWidget | cq-component-maven-plugin/src/main/java/com/citytechinc/cq/component/dialog/impl/DialogFieldSetWidget.java:14-53 | xtype is `dialogfieldset`, primary type `cq:Widget`; every getter and base attribute returns its constructor argument |
| TouchFieldSet.JcrTitleForField | cq-component-maven-plugin/src/main/java/com/citytechinc/cq/component/touchuidialog/widget/dialogfieldset/DialogFieldSetWidgetMaker.java:152-158 | the title is present exactly when the annotation title is not blank, and then equals it |
| TouchFieldSet.PrefixPosition | cq-component-maven-plugin/src/main/java/com/citytechinc/cq/component/touchuidialog/widget/dialogfieldset/DialogFieldSetWidgetMaker.java:125-129 | the prefix goes at position 2 exactly when the name starts with `./`, else at 0 |
| TouchFieldSet.PrefixName | cq-component-maven-plugin/src/main/java/com/citytechinc/cq/component/touchuidialog/widget/dialogfieldset/DialogFieldSetWidgetMaker.java:123-134 | the new name is the old one with the prefix inserted right after any leading `./`; a leading `./` is never removed |
| TouchFieldSet.PrefixAfterDotSlash | cq-component-maven-plugin/src/main/java/com/citytechinc/cq/component/touchuidialog/widget/dialogfieldset/DialogFieldSetWidgetMaker.java:125-133 | `./x` becomes `./` + prefix + `x` |
| TouchFieldSet.PrefixAtStart | cq-component-maven-plugin/src/main/java/com/citytechinc/cq/component/touchuidialog/widget/dialogfieldset/DialogFieldSetWidgetMaker.java:127-130 | a name `x` without `./` becomes prefix + `x` |
| TouchFieldSet.PrefixKeepsDotSlash | cq-component-maven-plugin/src/main/java/com/citytechinc/cq/component/touchuidialog/widget/dialogfieldset/DialogFieldSetWidgetMaker.java:123-133 | the rewrite adds or removes no leading `./` when the prefix does not begin with `.` |
| TouchFieldSet.PrefixNameInvertible | cq-component-maven-plugin/src/main/java/com/citytechinc/cq/component/touchuidialog/widget/dialogfieldset/DialogFieldSetWidgetMaker.java:123-134 | cutting the prefix back out of the new name recovers the original name |
| TouchFieldSet.ConfigFor | cq-component-maven-plugin/src/main/java/com/citytechinc/cq/component/touchuidialog/widget/dialogfieldset/DialogFieldSetWidgetMaker.java:90-102 | a field's config is its own `@DialogField` (none without one); a method's is the superclass lookup's, whose failure becomes an invalid-field error |
| TouchFieldSet.ChildParameters | cq-component-maven-plugin/src/main/java/com/citytechinc/cq/component/touchuidialog/widget/dialogfieldset/DialogFieldSetWidgetMaker.java:106-113 | every child is made in dot-slash mode with the parent's class loader, class pool and registry, its config and its declaring class |
| TouchFieldSet.Finish | cq-component-maven-plugin/src/main/java/com/citytechinc/cq/component/touchuidialog/widget/dialogfieldset/DialogFieldSetWidgetMaker.java:117-139 | the kept child carries its config's ranking; a widget's name gets the prefix when the prefix is not blank, otherwise the name is unchanged |
| TouchFieldSet.ChildFor | cq-component-maven-plugin/src/main/java/com/citytechinc/cq/component/touchuidialog/widget/dialogfieldset/DialogFieldSetWidgetMaker.java:87-88 | an ignored member never yields a child |
| TouchFieldSet.ChildForCases | cq-component-maven-plugin/src/main/java/com/citytechinc/cq/component/touchuidialog/widget/dialogfieldset/DialogFieldSetWidgetMaker.java:87-143 | a child exists only for a non-ignored member with a non-suppressed config, a loadable class and a non-null factory result, and is that result finished; the member raises exactly on a failed lookup or an unloadable class |
| TouchFieldSet.CollectFailurePersists | cq-component-maven-plugin/src/main/java/com/citytechinc/cq/component/touchuidialog/widget/dialogfieldset/DialogFieldSetWidgetMaker.java:87-145 | once a member raises, the walk ends with that exception |
| TouchFieldSet.CollectAppend | cq-component-maven-plugin/src/main/java/com/citytechinc/cq/component/touchuidialog/widget/dialogfieldset/DialogFieldSetWidgetMaker.java:80-87 | the children of fields + methods are the fields' children followed by the methods' children, and a failure among fields wins |
| TouchFieldSet.CollectShape | cq-component-maven-plugin/src/main/java/com/citytechinc/cq/component/touchuidialog/widget/dialogfieldset/DialogFieldSetWidgetMaker.java:87-145 | the walk over the members yields at most one child per member, and fails only with `InvalidComponentFieldException` or `ClassNotFoundException` |
| TouchFieldSet.LayoutItems | cq-component-maven-plugin/src/main/java/com/citytechinc/cq/component/touchuidialog/widget/dialogfieldset/DialogFieldSetWidgetMaker.java:80-149 | the result is `NotFound` exactly when the contained type cannot be found |
| TouchFieldSet.CollectSucceeds | cq-component-maven-plugin/src/main/java/com/citytechinc/cq/component/touchuidialog/widget/dialogfieldset/DialogFieldSetWidgetMaker.java:87-145 | the walk succeeds exactly when every member succeeds |
| TouchFieldSet.CollectElements | cq-component-maven-plugin/src/main/java/com/citytechinc/cq/component/touchuidialog/widget/dialogfieldset/DialogFieldSetWidgetMaker.java:115-141 | after a successful walk the children are exactly the non-null factory results of the members |
| TouchFieldSet.CollectFirstFailure | cq-component-maven-plugin/src/main/java/com/citytechinc/cq/component/touchuidialog/widget/dialogfieldset/DialogFieldSetWidgetMaker.java:91-107 | a failed walk reports the exception of the first failing member, all earlier members having succeeded |
| TouchFieldSet.LayoutItemsSortedPermutation | cq-component-maven-plugin/src/main/java/com/citytechinc/cq/component/touchuidialog/widget/dialogfieldset/DialogFieldSetWidgetMaker.java:80-149 | the items are ordered by the comparator, are a permutation of the fields' then the methods' children, and equally ranked children keep enumeration order |
| TouchFieldSet.SkippedMembersProduceNothing | cq-component-maven-plugin/src/main/java/com/citytechinc/cq/component/touchuidialog/widget/dialogfieldset/DialogFieldSetWidgetMaker.java:88-118 | every item comes from a non-ignored member with a non-suppressed config and carries that config's ranking |
| TouchFieldSet.ChildNameWithSharedNaming | cq-component-maven-plugin/src/main/java/com/citytechinc/cq/component/touchuidialog/widget/dialogfieldset/DialogFieldSetWidgetMaker.java:106-134 | with the shared naming rule and no override, a child is named `./` + structural name, with a non-blank prefix inserted after `./` |
| TouchFieldSet.BuildLayoutItems | cq-component-maven-plugin/src/main/java/com/citytechinc/cq/component/touchuidialog/widget/dialogfieldset/DialogFieldSetWidgetMaker.java:76-150 | the loop's result is the layout-items specification: `NotFound` for an unknown type, else the first failure or the stably sorted children |
| TouchFieldSet.Make | cq-component-maven-plugin/src/main/java/com/citytechinc/cq/component/touchuidialog/widget/dialogfieldset/DialogFieldSetWidgetMaker.java:52-74 | the fieldset's name is null, required is true, the title is the non-blank annotation title; items are the layout items; a type lookup failure becomes a generation error and returns no widget |
| StableSort.InsertionSort | cq-component-maven-plugin/src/main/java/com/citytechinc/cq/component/touchuidialog/widget/dialogfieldset/DialogFieldSetWidgetMaker.java:147 | the sort keeps the length of the list |
| StableSort.SortSorted | cq-component-maven-plugin/src/main/java/com/citytechinc/cq/component/touchuidialog/widget/dialogfieldset/DialogFieldSetWidgetMaker.java:147 | the sorted list is ordered by the comparator |
| StableSort.SortPermutes | cq-component-maven-plugin/src/main/java/com/citytechinc/cq/component/touchuidialog/widget/dialogfieldset/DialogFieldSetWidgetMaker.java:147 | the sorted list is a permutation of the input |
| StableSort.SortStable | cq-component-maven-plugin/src/main/java/com/citytechinc/cq/component/touchuidialog/widget/dialogfieldset/DialogFieldSetWidgetMaker.java:147 | elements the comparator ranks equal keep their input order |
| StableSort.SortOfSorted | cq-component-maven-plugin/src/main/java/com/citytechinc/cq/component/touchuidialog/widget/dialogfieldset/DialogFieldSetWidgetMaker.java:147 | an ordered list is returned unchanged |
| StableSort.SortIdempotent | cq-component-maven-plugin/src/main/java/com/citytechinc/cq/component/touchuidialog/widget/dialogfieldset/DialogFieldSetWidgetMaker.java:147 | sorting twice equals sorting once |

## Left out

- Reflection and javassist (`getGenericSuperclass().newInstance()`, `getAnnotation`, `hasAnnotation`, `getCtType`, `getType`): members and annotations are plain values.
- The kind-specific `make(T)` that `make()` hands the filled parameters to: `PrepareParameters` stops at that hand-off.
- `DialogUtil`, `TouchUIWidgetFactory`, `ComponentMojoUtil.collectFields/collectMethods`, `TouchUIDialogElementComparator`, `Listeners` and the class loader are parameters; no ranking semantics (such as where absent ranks sort) is assumed of the comparator.
- Exceptions the factory itself may throw are not modelled; the factory returns a child or null.
- The fieldset annotation is assumed present (the source would throw a `NullPointerException` in `getJcrTitleForField` otherwise), and a child widget's name is a plain string, never null (`TouchElement.name`).
- The touch-UI `DialogFieldSetWidget` built from the parameters is not part of this model: `Make` returns the populated parameters object.
- Children are values: `setRanking` and `setName` on a freshly made, unshared child are record updates, so no aliasing is lost.
- `Collections.sort` is modelled by a stable insertion sort on a sequence, not by TimSort on the list in place; only its contract (ordered, permutation, stable) is relied on.
- Rankings are `real`, not IEEE doubles; they are only copied, never compared here.
- `LogSingleton` warnings have no effect and are left out.
- Case mapping is ASCII only (`Text.ToLower`), and `isNotBlank` knows only the ASCII whitespace of `Character.isWhitespace`.
- Annotation string values are never null in Java; an unset override is "" (`isNotEmpty` treats null and "" alike).
- The arguments the classic `DialogFieldSetWidget` constructor passes to `AbstractWidget` as the constants `true` and three `null`s are not modelled; `AbstractWidget` is not part of this model.
- The inherited `setFieldName` of `WidgetCollectionParameters` is modelled as `SetFieldName`; `DefaultDialogElementParameters` is not part of this model.
- TouchFieldSet.PrefixKeepsDotSlash: holds only for prefixes that do not begin with `.`; a prefix such as `./a` on a name `x` yields `./ax`, which does gain a leading `./`.
- TouchFieldSet.Finish: a nested dialog fieldset child has a null name (the maker sets it to null), so under a non-blank `namePrefix` the source's prefix rewrite dereferences null and throws a `NullPointerException`; the model's factory returns a plain string as every child's name (`TouchElement.name`), so that exception is not modelled and a nested fieldset is rewritten like any other widget.
