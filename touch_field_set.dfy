/**
 * The touch-UI `DialogFieldSetWidgetMaker`: a composite maker. It walks the
 * fields, then the methods, of the fieldset's own type; every member that is
 * not ignored, has a governing `@DialogField` and is not suppressed for the
 * touch UI becomes a child widget built in dot-slash mode. Children take the
 * ranking of their config, get the fieldset's name prefix inserted after any
 * leading `./`, and are sorted stably by the element comparator.
 *
 * The inheritance-aware lookup for methods, the class loader, the widget
 * factory and the element comparator are not part of this model; they are the
 * parameters gathered in `Collaborators`.
 */
module TouchFieldSet {

  import opened Wrappers
  import opened Text
  import opened DialogModel
  import opened StableSort
  import WidgetMaker

  /** The values of `@DialogFieldSet` this maker reads. */
  datatype DialogFieldSetAnnotation = DialogFieldSetAnnotation(title: string, namePrefix: string)

  /**
   * A `TouchUIDialogElement` as the factory returns it: whether it is an
   * `AbstractTouchUIWidget` (only those are renamed), its resource type, its
   * name and its ranking (`null` until set).
   */
  datatype TouchElement = TouchElement(isWidget: bool, resourceType: string, name: string, ranking: Option<real>)

  /** What `collectFields` and `collectMethods` return for the fieldset's type. */
  datatype ContainedType = ContainedType(fields: seq<Member>, methods: seq<Member>)

  /** The exceptions that leave the maker. */
  datatype GenerationError =
    | NotFound                                  // javassist `NotFoundException` looking up the type
    | InvalidComponentField(message: string)    // the superclass lookup rejected a method
    | ClassNotFound(className: string)          // the declaring class could not be loaded
    | TouchUIDialogGeneration(fieldName: string, containingClass: string)

  /**
   * The collaborators: `DialogUtil.getDialogFieldFromSuperClasses` (a failure
   * carries the message of `InvalidComponentClassException`), whether the class
   * loader can load a class by name, `TouchUIWidgetFactory.make`, and the
   * comparator, read as `le(a, b)` when `compare(a, b) <= 0`.
   */
  datatype Collaborators = Collaborators(
    resolveFromSuperClasses: Member -> Result<Option<DialogFieldConfig>, string>,
    loadable: string -> bool,
    factory: MakerParameters -> Option<TouchElement>,
    le: (TouchElement, TouchElement) -> bool)

  // ---------------------------------------------------------------------------
  // The fieldset's own attributes

  /** `getJcrTitleForField`: the annotation's title when it is not blank, else null. */
  function JcrTitleForField(annotation: DialogFieldSetAnnotation): (r: Option<string>)
    ensures r.Some? <==> IsNotBlank(annotation.title)
    ensures r.Some? ==> r.value == annotation.title
  {
    if IsNotBlank(annotation.title) then Some(annotation.title) else None
  }

  // ---------------------------------------------------------------------------
  // Name prefix rewriting

  /** Where the prefix goes: after a leading `./`, else at the very start. */
  function PrefixPosition(name: string): (k: nat)
    ensures k <= |name|
    ensures k == 2 <==> StartsWith(name, "./")
    ensures k == 0 <==> !StartsWith(name, "./")
  {
    if StartsWith(name, "./") then 2 else 0
  }

  /** The child's new name: `prefix` inserted immediately after any leading `./`. */
  function PrefixName(name: string, prefix: string): (r: string)
    ensures |r| == |name| + |prefix|
    ensures r == name[..PrefixPosition(name)] + prefix + name[PrefixPosition(name)..]
    ensures StartsWith(name, "./") ==> StartsWith(r, "./")
  {
    var newName := if StartsWith(name, "./") then name[2..] else name;
    var prefixed := prefix + newName;
    if StartsWith(name, "./") then "./" + prefixed else prefixed
  }

  /** A child named `./x` becomes `./` + prefix + `x`. */
  lemma PrefixAfterDotSlash(x: string, prefix: string)
    ensures PrefixName("./" + x, prefix) == "./" + prefix + x
  {
    assert ("./" + x)[..2] == "./";
    assert ("./" + x)[2..] == x;
  }

  /** A child named `x` without a leading `./` becomes prefix + `x`. */
  lemma PrefixAtStart(x: string, prefix: string)
    requires !StartsWith(x, "./")
    ensures PrefixName(x, prefix) == prefix + x
  {
  }

  /**
   * The rewrite never removes a leading `./`, and adds none as long as the
   * prefix does not itself start with `.`.
   */
  lemma PrefixKeepsDotSlash(name: string, prefix: string)
    requires prefix == [] || prefix[0] != '.'
    ensures StartsWith(PrefixName(name, prefix), "./") <==> StartsWith(name, "./")
  {
    var r := PrefixName(name, prefix);
    if !StartsWith(name, "./") && prefix != [] {
      assert r[0] == prefix[0];
    }
  }

  /** Removing the prefix again gives back the factory's name: no information is lost. */
  lemma PrefixNameInvertible(name: string, prefix: string)
    ensures var r := PrefixName(name, prefix);
            var k := PrefixPosition(name);
            r[..k] + r[k + |prefix|..] == name && r[k..k + |prefix|] == prefix
  {
    var r := PrefixName(name, prefix);
    var k := PrefixPosition(name);
    assert r == name[..k] + prefix + name[k..];
    assert r[..k] == name[..k];
    assert r[k + |prefix|..] == name[k..];
    assert name[..k] + name[k..] == name;
  }

  // ---------------------------------------------------------------------------
  // One member

  /** The governing config: a field's own `@DialogField`, a method's from the superclass lookup. */
  function ConfigFor(m: Member, col: Collaborators): (r: Result<Option<DialogFieldConfig>, GenerationError>)
    ensures m.kind == FieldMember ==>
              r.Success? && (r.value.Some? <==> m.dialogField.Some?)
              && (r.value.Some? ==> r.value.value == DialogFieldConfig(m.dialogField.value, m))
    ensures m.kind == MethodMember ==>
              (r.Failure? <==> col.resolveFromSuperClasses(m).Failure?)
              && (r.Failure? ==> r.error == InvalidComponentField(col.resolveFromSuperClasses(m).error))
              && (r.Success? ==> r.value == col.resolveFromSuperClasses(m).value)
  {
    if m.kind == MethodMember then
      match col.resolveFromSuperClasses(m)
      case Failure(message) => Failure(InvalidComponentField(message))
      case Success(c) => Success(c)
    else if m.dialogField.Some? then Success(Some(DialogFieldConfig(m.dialogField.value, m)))
    else Success(None)
  }

  /** The parameters a child is made with: dot-slash mode on, the parent's collaborators. */
  function ChildParameters(cfg: DialogFieldConfig, m: Member, parent: MakerParameters): (p: MakerParameters)
    ensures p.useDotSlashInName
    ensures p.environment == parent.environment
    ensures p.dialogFieldConfig == cfg && p.containingClass == m.declaringClass
  {
    MakerParameters(cfg, m.declaringClass, parent.environment, true)
  }

  /** The factory's element once the maker has set its ranking and applied the name prefix. */
  function Finish(e: TouchElement, cfg: DialogFieldConfig, prefix: string): (r: TouchElement)
    ensures r.ranking == Some(cfg.settings.ranking)
    ensures r.isWidget == e.isWidget && r.resourceType == e.resourceType
    ensures r.name == if e.isWidget && IsNotBlank(prefix) then PrefixName(e.name, prefix) else e.name
  {
    var ranked := e.(ranking := Some(cfg.settings.ranking));
    if ranked.isWidget && IsNotBlank(prefix) then ranked.(name := PrefixName(ranked.name, prefix)) else ranked
  }

  /** One pass of the loop: the child a member produces, nothing, or the exception it raises. */
  function ChildFor(m: Member, parent: MakerParameters, annotation: DialogFieldSetAnnotation, col: Collaborators)
    : (r: Result<Option<TouchElement>, GenerationError>)
    ensures m.ignored ==> r == Success(None)
  {
    if m.ignored then Success(None)
    else
      match ConfigFor(m, col)
      case Failure(e) => Failure(e)
      case Success(None) => Success(None)
      case Success(Some(cfg)) =>
        if cfg.settings.suppressTouchUI then Success(None)
        else if !col.loadable(m.declaringClass) then Failure(ClassNotFound(m.declaringClass))
        else
          match col.factory(ChildParameters(cfg, m, parent))
          case None => Success(None)
          case Some(e) => Success(Some(Finish(e, cfg, annotation.namePrefix)))
  }

  /**
   * When a member yields a child: only a non-ignored member with a governing,
   * non-suppressed config, a loadable declaring class and a non-null factory
   * result, made in dot-slash mode with the parent's collaborators. When it
   * raises: exactly on a failed superclass lookup or an unloadable class.
   */
  lemma ChildForCases(m: Member, parent: MakerParameters, annotation: DialogFieldSetAnnotation, col: Collaborators)
    ensures var r := ChildFor(m, parent, annotation, col);
            r.Success? && r.value.Some? ==>
              && !m.ignored
              && ConfigFor(m, col).Success? && ConfigFor(m, col).value.Some?
              && !ConfigFor(m, col).value.value.settings.suppressTouchUI
              && col.loadable(m.declaringClass)
              && var cfg := ConfigFor(m, col).value.value;
                 col.factory(ChildParameters(cfg, m, parent)).Some?
                 && r.value.value == Finish(col.factory(ChildParameters(cfg, m, parent)).value, cfg, annotation.namePrefix)
    ensures var r := ChildFor(m, parent, annotation, col);
            r.Failure? <==>
              && !m.ignored
              && (|| ConfigFor(m, col).Failure?
                  || (&& ConfigFor(m, col).value.Some?
                      && !ConfigFor(m, col).value.value.settings.suppressTouchUI
                      && !col.loadable(m.declaringClass)))
    ensures var r := ChildFor(m, parent, annotation, col);
            r.Failure? ==> r.error.InvalidComponentField? || r.error == ClassNotFound(m.declaringClass)
  {
  }

  // ---------------------------------------------------------------------------
  // All members, in enumeration order

  /** The children of `ms`, in order, or the first exception a member raises. */
  function Collect(ms: seq<Member>, parent: MakerParameters, annotation: DialogFieldSetAnnotation, col: Collaborators)
    : Result<seq<TouchElement>, GenerationError>
  {
    if ms == [] then Success([])
    else
      match Collect(ms[..|ms| - 1], parent, annotation, col)
      case Failure(e) => Failure(e)
      case Success(es) =>
        match ChildFor(ms[|ms| - 1], parent, annotation, col)
        case Failure(e) => Failure(e)
        case Success(None) => Success(es)
        case Success(Some(c)) => Success(es + [c])
  }

  /**
   * `buildLayoutItems` as a value: an unknown type is `NotFound`; otherwise the
   * children of the fields and then the methods, stably sorted.
   */
  function LayoutItems(annotation: DialogFieldSetAnnotation, contained: Option<ContainedType>,
                       parent: MakerParameters, col: Collaborators): (r: Result<seq<TouchElement>, GenerationError>)
    ensures r == Failure(NotFound) <==> contained.None?
  {
    if contained.None? then Failure(NotFound)
    else
      var members := contained.value.fields + contained.value.methods;
      match Collect(members, parent, annotation, col)
      case Failure(e) => CollectShape(members, parent, annotation, col); Failure(e)
      case Success(es) => Success(InsertionSort(es, col.le))
  }

  /**
   * The walk yields at most one child per member, and the only exceptions it
   * raises are a failed superclass lookup or an unloadable class.
   */
  lemma {:induction false} CollectShape(ms: seq<Member>, parent: MakerParameters,
                                        annotation: DialogFieldSetAnnotation, col: Collaborators)
    ensures var r := Collect(ms, parent, annotation, col);
            (r.Success? ==> |r.value| <= |ms|)
            && (r.Failure? ==> r.error.InvalidComponentField? || r.error.ClassNotFound?)
    decreases |ms|
  {
    if ms != [] {
      CollectShape(ms[..|ms| - 1], parent, annotation, col);
      ChildForCases(ms[|ms| - 1], parent, annotation, col);
    }
  }

  /** Once a prefix of the members has failed, the whole walk fails with that exception. */
  lemma {:induction false} CollectFailurePersists(ms: seq<Member>, k: nat, parent: MakerParameters,
                                                  annotation: DialogFieldSetAnnotation, col: Collaborators)
    requires k <= |ms|
    requires Collect(ms[..k], parent, annotation, col).Failure?
    ensures Collect(ms, parent, annotation, col) == Collect(ms[..k], parent, annotation, col)
    decreases |ms| - k
  {
    if k < |ms| {
      assert ms[..k + 1][..k] == ms[..k];
      CollectFailurePersists(ms, k + 1, parent, annotation, col);
    } else {
      assert ms[..k] == ms;
    }
  }

  /**
   * Enumeration order is kept: the children of `a + b` are those of `a`
   * followed by those of `b`, and a failure in `a` wins over one in `b`.
   */
  lemma {:induction false} CollectAppend(a: seq<Member>, b: seq<Member>, parent: MakerParameters,
                                         annotation: DialogFieldSetAnnotation, col: Collaborators)
    ensures Collect(a + b, parent, annotation, col) ==
              match Collect(a, parent, annotation, col)
              case Failure(e) => Failure(e)
              case Success(x) =>
                match Collect(b, parent, annotation, col)
                case Failure(e) => Failure(e)
                case Success(y) => Success(x + y)
  {
    if b == [] {
      assert a + b == a;
      if Collect(a, parent, annotation, col).Success? {
        assert Collect(a, parent, annotation, col).value + [] == Collect(a, parent, annotation, col).value;
      }
    } else {
      var b0 := b[..|b| - 1];
      CollectAppend(a, b0, parent, annotation, col);
      assert (a + b)[..|a + b| - 1] == a + b0;
      assert (a + b)[|a + b| - 1] == b[|b| - 1];
      match Collect(a, parent, annotation, col)
      case Failure(e) =>
      case Success(x) =>
        match Collect(b0, parent, annotation, col)
        case Failure(e) =>
        case Success(y) =>
          match ChildFor(b[|b| - 1], parent, annotation, col)
          case Failure(e) =>
          case Success(None) =>
          case Success(Some(c)) =>
            assert x + y + [c] == x + (y + [c]);
    }
  }

  /** The walk succeeds exactly when every member succeeds. */
  lemma {:induction false} CollectSucceeds(ms: seq<Member>, parent: MakerParameters,
                                           annotation: DialogFieldSetAnnotation, col: Collaborators)
    ensures Collect(ms, parent, annotation, col).Success? <==>
              forall i :: 0 <= i < |ms| ==> ChildFor(ms[i], parent, annotation, col).Success?
  {
    if ms != [] {
      var init := ms[..|ms| - 1];
      CollectSucceeds(init, parent, annotation, col);
      assert forall i :: 0 <= i < |init| ==> init[i] == ms[i];
    }
  }

  /** A successful walk holds exactly the elements the members produce. */
  lemma {:induction false} CollectElements(ms: seq<Member>, parent: MakerParameters,
                                           annotation: DialogFieldSetAnnotation, col: Collaborators, e: TouchElement)
    requires Collect(ms, parent, annotation, col).Success?
    ensures e in Collect(ms, parent, annotation, col).value <==>
              exists i :: 0 <= i < |ms| && ChildFor(ms[i], parent, annotation, col) == Success(Some(e))
  {
    if ms != [] {
      var init := ms[..|ms| - 1];
      var last := ChildFor(ms[|ms| - 1], parent, annotation, col);
      CollectElements(init, parent, annotation, col, e);
      var es0 := Collect(init, parent, annotation, col).value;
      var es := Collect(ms, parent, annotation, col).value;
      assert es == if last.value.Some? then es0 + [last.value.value] else es0;
      if e in es && last != Success(Some(e)) {
        assert e in es0;
        var i :| 0 <= i < |init| && ChildFor(init[i], parent, annotation, col) == Success(Some(e));
        assert init[i] == ms[i];
      }
      if exists i :: 0 <= i < |ms| && ChildFor(ms[i], parent, annotation, col) == Success(Some(e)) {
        var i :| 0 <= i < |ms| && ChildFor(ms[i], parent, annotation, col) == Success(Some(e));
        if i < |init| {
          assert init[i] == ms[i];
          assert e in es0;
        }
      }
    }
  }

  /** A failed walk reports the exception of its first failing member. */
  lemma {:induction false} CollectFirstFailure(ms: seq<Member>, parent: MakerParameters,
                                               annotation: DialogFieldSetAnnotation, col: Collaborators)
    requires Collect(ms, parent, annotation, col).Failure?
    ensures exists i :: 0 <= i < |ms|
              && ChildFor(ms[i], parent, annotation, col) == Failure(Collect(ms, parent, annotation, col).error)
              && forall j :: 0 <= j < i ==> ChildFor(ms[j], parent, annotation, col).Success?
  {
    var init := ms[..|ms| - 1];
    assert forall i :: 0 <= i < |init| ==> init[i] == ms[i];
    if Collect(init, parent, annotation, col).Failure? {
      CollectFirstFailure(init, parent, annotation, col);
      var i :| 0 <= i < |init|
              && ChildFor(init[i], parent, annotation, col) == Failure(Collect(init, parent, annotation, col).error)
              && forall j :: 0 <= j < i ==> ChildFor(init[j], parent, annotation, col).Success?;
      assert ChildFor(ms[i], parent, annotation, col) == Failure(Collect(ms, parent, annotation, col).error);
    } else {
      CollectSucceeds(init, parent, annotation, col);
      assert ChildFor(ms[|ms| - 1], parent, annotation, col) == Failure(Collect(ms, parent, annotation, col).error);
    }
  }

  /**
   * What `buildLayoutItems` promises: the items are the children of the fields
   * followed by those of the methods, reordered by the comparator, as a
   * permutation, and with children the comparator ranks equal left in
   * enumeration order.
   */
  lemma LayoutItemsSortedPermutation(annotation: DialogFieldSetAnnotation, contained: Option<ContainedType>,
                                     parent: MakerParameters, col: Collaborators)
    requires TotalPreorder(col.le)
    requires LayoutItems(annotation, contained, parent, col).Success?
    ensures contained.Some?
    ensures var items := LayoutItems(annotation, contained, parent, col).value;
            var fs := Collect(contained.value.fields, parent, annotation, col);
            var ms := Collect(contained.value.methods, parent, annotation, col);
            && fs.Success? && ms.Success?
            && Sorted(items, col.le)
            && multiset(items) == multiset(fs.value + ms.value)
            && (forall c :: EquivalentTo(items, c, col.le) == EquivalentTo(fs.value + ms.value, c, col.le))
  {
    CollectAppend(contained.value.fields, contained.value.methods, parent, annotation, col);
    var es := Collect(contained.value.fields + contained.value.methods, parent, annotation, col).value;
    SortSorted(es, col.le);
    SortPermutes(es, col.le);
    forall c ensures EquivalentTo(InsertionSort(es, col.le), c, col.le) == EquivalentTo(es, c, col.le) {
      SortStable(es, c, col.le);
    }
  }

  /** Ignored members, members without config and touch-UI-suppressed members never appear among the items. */
  lemma SkippedMembersProduceNothing(annotation: DialogFieldSetAnnotation, contained: Option<ContainedType>,
                                     parent: MakerParameters, col: Collaborators, e: TouchElement)
    requires LayoutItems(annotation, contained, parent, col).Success?
    requires e in LayoutItems(annotation, contained, parent, col).value
    ensures contained.Some?
    ensures exists i :: 0 <= i < |contained.value.fields + contained.value.methods|
              && var m := (contained.value.fields + contained.value.methods)[i];
                 && !m.ignored
                 && ConfigFor(m, col).Success? && ConfigFor(m, col).value.Some?
                 && !ConfigFor(m, col).value.value.settings.suppressTouchUI
                 && e.ranking == Some(ConfigFor(m, col).value.value.settings.ranking)
  {
    assert contained.Some?;
    var members := contained.value.fields + contained.value.methods;
    var es := Collect(members, parent, annotation, col).value;
    SortPermutes(es, col.le);
    assert e in multiset(es);
    CollectElements(members, parent, annotation, col, e);
    var i :| 0 <= i < |members| && ChildFor(members[i], parent, annotation, col) == Success(Some(e));
    ChildForCases(members[i], parent, annotation, col);
  }

  /**
   * With a factory that names its widgets by the shared naming rule and no name
   * override, a child is named `./` + the member's structural name, with the
   * fieldset's non-blank prefix inserted after the `./`.
   */
  lemma ChildNameWithSharedNaming(m: Member, parent: MakerParameters, annotation: DialogFieldSetAnnotation,
                                  col: Collaborators)
    requires forall p :: col.factory(p).Some? ==>
               col.factory(p).value.isWidget && col.factory(p).value.name == WidgetMaker.NameForField(p)
    requires ChildFor(m, parent, annotation, col).Success? && ChildFor(m, parent, annotation, col).value.Some?
    requires ConfigFor(m, col).Success? && ConfigFor(m, col).value.Some?
    requires ConfigFor(m, col).value.value.settings.name == ""
    ensures var cfg := ConfigFor(m, col).value.value;
            var structural := WidgetMaker.StructuralName(cfg.member);
            ChildFor(m, parent, annotation, col).value.value.name ==
              if IsNotBlank(annotation.namePrefix) then "./" + annotation.namePrefix + structural
              else "./" + structural
  {
    var cfg := ConfigFor(m, col).value.value;
    var structural := WidgetMaker.StructuralName(cfg.member);
    var p := ChildParameters(cfg, m, parent);
    ChildForCases(m, parent, annotation, col);
    assert WidgetMaker.NameForField(p) == "./" + structural;
    PrefixAfterDotSlash(structural, annotation.namePrefix);
  }

  // ---------------------------------------------------------------------------
  // The loop and the maker

  /** `buildLayoutItems`: the loop over fields then methods, and the sort. */
  method BuildLayoutItems(annotation: DialogFieldSetAnnotation, contained: Option<ContainedType>,
                          parent: MakerParameters, col: Collaborators)
    returns (r: Result<seq<TouchElement>, GenerationError>)
    ensures r == LayoutItems(annotation, contained, parent, col)
  {
    if contained.None? {
      return Failure(NotFound);
    }
    var fieldsAndMethods := contained.value.fields + contained.value.methods;
    var elements: seq<TouchElement> := [];
    for i := 0 to |fieldsAndMethods|
      invariant Collect(fieldsAndMethods[..i], parent, annotation, col) == Success(elements)
    {
      var member := fieldsAndMethods[i];
      assert fieldsAndMethods[..i + 1][..i] == fieldsAndMethods[..i];
      if !member.ignored {
        var dialogFieldConfig: Option<DialogFieldConfig> := None;
        if member.kind == MethodMember {
          var resolved := col.resolveFromSuperClasses(member);
          if resolved.Failure? {
            CollectFailurePersists(fieldsAndMethods, i + 1, parent, annotation, col);
            return Failure(InvalidComponentField(resolved.error));
          }
          dialogFieldConfig := resolved.value;
        } else if member.dialogField.Some? {
          dialogFieldConfig := Some(DialogFieldConfig(member.dialogField.value, member));
        }
        if dialogFieldConfig.Some? && !dialogFieldConfig.value.settings.suppressTouchUI {
          var cfg := dialogFieldConfig.value;
          if !col.loadable(member.declaringClass) {
            CollectFailurePersists(fieldsAndMethods, i + 1, parent, annotation, col);
            return Failure(ClassNotFound(member.declaringClass));
          }
          var curFieldMember := ChildParameters(cfg, member, parent);
          var currentDialogElement := col.factory(curFieldMember);
          if currentDialogElement.Some? {
            var element := currentDialogElement.value.(ranking := Some(cfg.settings.ranking));
            if element.isWidget && IsNotBlank(annotation.namePrefix) {
              element := element.(name := PrefixName(element.name, annotation.namePrefix));
            }
            elements := elements + [element];
          }
        }
      }
    }
    assert fieldsAndMethods[..|fieldsAndMethods|] == fieldsAndMethods;
    return Success(InsertionSort(elements, col.le));
  }

  /** The touch-UI fieldset parameters `make` fills in. */
  class DialogFieldSetWidgetParameters {
    var name: Option<string>
    var required: bool
    var jcrTitle: Option<string>
    var items: seq<TouchElement>

    constructor (name: Option<string>)
      ensures this.name == name && !required && jcrTitle.None? && items == []
    {
      this.name, required, jcrTitle, items := name, false, None, [];
    }
  }

  /**
   * `make`: the fieldset itself has no name, is required and carries the
   * non-blank title; its items are the built layout items. A failed type lookup
   * becomes a generation error naming the fieldset's field name and containing
   * class; the other exceptions pass through. No widget is returned on failure.
   */
  method Make(wp: DialogFieldSetWidgetParameters, parent: MakerParameters, annotation: DialogFieldSetAnnotation,
              contained: Option<ContainedType>, col: Collaborators)
    returns (r: Result<DialogFieldSetWidgetParameters, GenerationError>)
    modifies wp
    ensures wp.name.None? && wp.required && wp.jcrTitle == JcrTitleForField(annotation)
    ensures var built := LayoutItems(annotation, contained, parent, col);
            && (built.Success? ==> r == Success(wp) && wp.items == built.value)
            && (built == Failure(NotFound) ==>
                  r == Failure(TouchUIDialogGeneration(parent.dialogFieldConfig.settings.fieldName,
                                                       parent.containingClass))
                  && wp.items == old(wp.items))
            && (built.Failure? && built.error != NotFound ==> r == Failure(built.error) && wp.items == old(wp.items))
  {
    wp.name := None;
    wp.required := true;
    wp.jcrTitle := JcrTitleForField(annotation);
    var built := BuildLayoutItems(annotation, contained, parent, col);
    match built
    case Success(items) =>
      wp.items := items;
      r := Success(wp);
    case Failure(NotFound) =>
      r := Failure(TouchUIDialogGeneration(parent.dialogFieldConfig.settings.fieldName, parent.containingClass));
    case Failure(e) =>
      r := Failure(e);
  }
}
