/**
 * What the declaration renderer writes for each element, as functions of the
 * element, the options and the renderer's context (the declaration it is
 * inside of and the current indentation).
 *
 * Every renderer step that can throw yields a `Failure`; a text that is
 * produced at all is exactly the one given here.
 */
module DeclarationText {
  import opened Wrappers
  import opened Text
  import opened ConeTypes
  import CTR = ConeTypeRenderer
  import opened FirDeclarations

  /** Why rendering stops with an exception. */
  datatype RenderFailure =
      /** `require(containingDeclaration is FirProperty)` in `visitPropertyAccessor` */
    | AccessorOutsideProperty
      /** `check(containingClass is FirClass<*> || containingClass is FirEnumEntry)` in `visitConstructor` */
    | ConstructorOutsideClass
      /** The type renderer threw. */
    | TypeNotRenderable

  /** The renderer's mutable state: `containingDeclaration` and `tabbedString`. */
  datatype Context = Context(containing: Option<Container>, tabs: string)

  /** The context inside `underBlockDeclaration(declaration)`: four more spaces of indentation. */
  function BlockContext(ctx: Context, declaration: Container): (r: Context)
    ensures r.containing == Some(declaration)
    ensures |r.tabs| == |ctx.tabs| + 4 && forall i :: 0 <= i < |r.tabs| ==> r.tabs[i] == ' '
  {
    Context(Some(declaration), Spaces(|ctx.tabs| + 4))
  }

  /**
   * What `underBlockDeclaration` leaves behind after a body that rendered as
   * `inner`: nothing at all when the body wrote nothing, otherwise the body in
   * braces with the closing brace on a line of its own at the outer indentation.
   */
  function Block(tabs: string, inner: string): string
  {
    if |inner| == 0 then "" else " {" + inner + "\n" + tabs + "}"
  }

  /** Each element rendered by `f`, in order; the first failure otherwise. */
  function RenderAll<T>(xs: seq<T>, f: T -> Result<string, RenderFailure>): Result<seq<string>, RenderFailure>
  {
    if |xs| == 0 then Success([])
    else
      var init :- RenderAll(xs[..|xs| - 1], f);
      var last :- f(xs[|xs| - 1]);
      Success(init + [last])
  }

  // ---------------------------------------------------------------------
  // Small pieces
  // ---------------------------------------------------------------------

  /** `renderType(firRef, approximate)`: the reference's annotations, then its (approximated) type. */
  function TypeRefText(o: RendererOptions, t: TypeRef, approximate: bool): Result<string, RenderFailure>
  {
    var shown := if approximate && t.approximation.Some? then t.approximation.value else t.coneType;
    var text := CTR.TypeText(o.typeOptions, shown);
    if text.None? then Failure(TypeNotRenderable) else Success(t.annotations + text.value)
  }

  /** `renderAnnotations`: only when the options ask for annotations. */
  function AnnotationsText(o: RendererOptions, annotations: string): string
  {
    if AnnotationsModifier in o.modifiers then annotations else ""
  }

  /** `renderModifier(value, modifier)` */
  function ModifierText(value: bool, modifier: string): string
  {
    if value then modifier + " " else ""
  }

  /** `renderVisibility`: the (normalized) visibility unless it is the default one. */
  function VisibilityText(o: RendererOptions, v: Visibility): string
  {
    if VisibilityModifier !in o.modifiers then ""
    else
      var shown := if o.normalizedVisibilities then o.normalize(v) else v;
      if shown == DefaultVisibility then "" else InternalDisplayName(shown) + " "
  }

  /** `renderModality` */
  function ModalityText(o: RendererOptions, m: Modality): string
  {
    ModifierText(ModalityModifier in o.modifiers, ModalityKeyword(m))
  }

  /**
   * `renderModalityForCallable`: nothing without a modality, for a top-level
   * `final` callable, or for a callable written with `override`.
   */
  function CallableModalityText(o: RendererOptions, modality: Option<Modality>, overrides: bool,
                                containing: Option<Container>): string
  {
    if modality.None? then ""
    else
      var isTopLevel := containing.None?;
      if !isTopLevel || modality.value != Final then
        (if overrides then "" else ModalityText(o, modality.value))
      else ""
  }

  /** `renderOverride` */
  function OverrideText(o: RendererOptions, overrides: bool): string
  {
    if OverrideModifier !in o.modifiers then "" else ModifierText(overrides, "override")
  }

  /** `renderMemberModifiers` */
  function MemberModifiersText(o: RendererOptions, f: MemberFlags): string
  {
    ModifierText(f.isExternal, "external")
    + ModifierText(ExpectModifier in o.modifiers && f.isExpect, "expect")
    + ModifierText(ActualModifier in o.modifiers && f.isActual, "actual")
  }

  /** `renderAdditionalModifiers` */
  function AdditionalModifiersText(f: FunctionFlags): string
  {
    ModifierText(f.isTailRec, "tailrec")
    + ModifierText(f.isSuspend, "suspend")
    + ModifierText(f.isInline, "inline")
    + ModifierText(f.isInfix, "infix")
    + ModifierText(f.isOperator, "operator")
  }

  /** `renderValVarPrefix` for a property */
  function ValVarText(isVar: bool): string
  {
    (if isVar then "var" else "val") + " "
  }

  /** `renderSpaceIfNeeded` on a builder holding `before`. */
  function SpaceIfNeeded(before: string): string
  {
    if EndsWith(before, " ") then "" else " "
  }

  /** `renderName` of the declaration a constructor belongs to. */
  function ContainerNameText(c: Container): string
    requires c.RegularClassContainer? || c.AnonymousObjectContainer? || c.EnumEntryContainer?
  {
    match c
    case AnonymousObjectContainer => "<no name provided>"
    case RegularClassContainer(name) => name.rendered
    case EnumEntryContainer(name) => name.rendered
  }

  /** `getClassifierKindPrefix` for a regular class */
  function ClassifierKindPrefix(c: RegularClass): string
  {
    if c.isCompanion then "companion object"
    else
      match c.classKind
      case Class => "class"
      case Interface => "interface"
      case EnumClass => "enum class"
      case Object => "object"
      case AnnotationClass => "annotation class"
      case EnumEntry => "enum entry"
  }

  /** The first element of a list dropped (`drop(1)`). */
  function DropFirst<T>(s: seq<T>): seq<T>
  {
    if |s| == 0 then [] else s[1..]
  }

  // ---------------------------------------------------------------------
  // Type parameters, receivers, value parameters, supertypes
  // ---------------------------------------------------------------------

  /** The bounds the `for` loop of a top-level type parameter renders: all but `Any?`. */
  function ListedBounds(bounds: seq<TypeRef>): seq<TypeRef>
  {
    if |bounds| == 0 then []
    else ListedBounds(bounds[..|bounds| - 1]) + (if IsNullableAny(bounds[|bounds| - 1]) then [] else [bounds[|bounds| - 1]])
  }

  /** A bound rendered on its own. */
  function BoundText(o: RendererOptions): TypeRef -> Result<string, RenderFailure>
  {
    b => TypeRefText(o, b, false)
  }

  /** The single bound rendered inline, unless it is `Any?`. */
  function FirstBoundText(o: RendererOptions, bound: TypeRef): Result<string, RenderFailure>
  {
    if IsNullableAny(bound) then Success("")
    else
      var t :- TypeRefText(o, bound, false);
      Success(" : " + t)
  }

  /** All bounds but `Any?`, the first after ` : ` and the others after ` & `. */
  function AllBoundsText(o: RendererOptions, bounds: seq<TypeRef>): Result<string, RenderFailure>
  {
    var parts :- RenderAll(ListedBounds(bounds), BoundText(o));
    Success(if |parts| == 0 then "" else " : " + Join(parts, " & "))
  }

  /** What the bounds loop has written once it has rendered `parts`. */
  function BoundsWritten(parts: seq<string>): string
  {
    if |parts| == 0 then "" else " : " + Join(parts, " & ")
  }

  /** The bounds part of `renderTypeParameter`. */
  function TypeParameterBoundsText(o: RendererOptions, tp: TypeParameter, topLevel: bool): Result<string, RenderFailure>
  {
    var count := |tp.bounds|;
    if (count > 1 && !topLevel) || count == 1 then FirstBoundText(o, tp.bounds[0])
    else if topLevel then AllBoundsText(o, tp.bounds)
    else Success("")
  }

  /** The part of `renderTypeParameter` before the bounds. */
  function TypeParameterHeadText(o: RendererOptions, tp: TypeParameter, topLevel: bool): string
  {
    (if topLevel then "<" else "")
    + ModifierText(tp.isReified, "reified")
    + ModifierText(|VarianceLabel(tp.variance)| > 0, VarianceLabel(tp.variance))
    + AnnotationsText(o, tp.annotations)
    + tp.name.rendered
  }

  /** `renderTypeParameter(typeParameter, topLevel)` */
  function TypeParameterText(o: RendererOptions, tp: TypeParameter, topLevel: bool): Result<string, RenderFailure>
  {
    var bounds :- TypeParameterBoundsText(o, tp, topLevel);
    Success(TypeParameterHeadText(o, tp, topLevel) + bounds + (if topLevel then ">" else ""))
  }

  /** An entry of a type-parameter list. */
  function ListedTypeParameterText(o: RendererOptions): TypeParameter -> Result<string, RenderFailure>
  {
    tp => TypeParameterText(o, tp, false)
  }

  /** `renderTypeParameterList`: the parameters, each without its `<` `>`, separated by commas. */
  function TypeParameterListText(o: RendererOptions, tps: seq<TypeParameter>): Result<string, RenderFailure>
  {
    var texts :- RenderAll(tps, ListedTypeParameterText(o));
    Success(Join(texts, ", "))
  }

  /** `renderTypeParameters(typeParameters, withSpace)` */
  function TypeParametersText(o: RendererOptions, tps: seq<TypeParameter>, withSpace: bool): Result<string, RenderFailure>
  {
    if |tps| == 0 then Success("")
    else
      var list :- TypeParameterListText(o, tps);
      Success("<" + list + ">" + (if withSpace then " " else ""))
  }

  /** One `where` entry: the parameter's name, then one of its bounds. */
  function WhereEntryText(o: RendererOptions, name: Name): TypeRef -> Result<string, RenderFailure>
  {
    b => var t :- TypeRefText(o, b, false); Success(name.rendered + " : " + t)
  }

  /** The `where` entries of the parameters: every bound after the first, parameter by parameter. */
  function WhereEntries(o: RendererOptions, tps: seq<TypeParameter>): Result<seq<string>, RenderFailure>
  {
    if |tps| == 0 then Success([])
    else
      var init :- WhereEntries(o, tps[..|tps| - 1]);
      var tp := tps[|tps| - 1];
      var entries :- RenderAll(DropFirst(tp.bounds), WhereEntryText(o, tp.name));
      Success(init + entries)
  }

  /** `renderWhereSuffix` */
  function WhereSuffixText(o: RendererOptions, tps: seq<TypeParameter>): Result<string, RenderFailure>
  {
    var entries :- WhereEntries(o, tps);
    Success(if |entries| == 0 then "" else " " + "where" + " " + Join(entries, ", "))
  }

  /** The receiver type, in parentheses when it is a nullable function type. */
  function ReceiverTypeText(o: RendererOptions, receiverType: TypeRef): Result<string, RenderFailure>
  {
    var rendered :- TypeRefText(o, receiverType, false);
    if CTR.ShouldRenderAsPrettyFunctionType(receiverType.coneType) && receiverType.coneType.isMarkedNullable
    then Success("(" + rendered + ")")
    else Success(rendered)
  }

  /** `renderReceiver` */
  function ReceiverText(o: RendererOptions, receiverType: Option<TypeRef>, receiverAnnotations: string)
    : Result<string, RenderFailure>
  {
    if receiverType.None? then Success("")
    else
      var result :- ReceiverTypeText(o, receiverType.value);
      Success(AnnotationsText(o, receiverAnnotations) + result + ".")
  }

  /**
   * `renderValueParameter(valueParameter, isInPrimaryConstructor, topLevel)`.
   * `renderVariable` writes `val`/`var` only for a parameter of a primary
   * constructor: for a value parameter `renderValVarPrefix` requires it.
   */
  function ValueParameterText(o: RendererOptions, p: ValueParameter, isInPrimaryConstructor: bool, topLevel: bool)
    : Result<string, RenderFailure>
  {
    var t :- TypeRefText(o, p.returnType, false);
    Success(
      (if topLevel then "value-parameter" + " " else "")
      + AnnotationsText(o, p.annotations)
      + ModifierText(p.isCrossinline, "crossinline")
      + ModifierText(p.isNoinline, "noinline")
      + ModifierText(p.isVararg, "vararg")
      + (if isInPrimaryConstructor then ValVarText(p.isVar) else "")
      + p.name.rendered + ": " + t
      + (if p.hasDefaultValue then " = ..." else ""))
  }

  /** An entry of a value-parameter list. */
  function ListedValueParameterText(o: RendererOptions, isInPrimaryConstructor: bool)
    : ValueParameter -> Result<string, RenderFailure>
  {
    p => ValueParameterText(o, p, isInPrimaryConstructor, false)
  }

  /** `renderValueParameters` */
  function ValueParametersText(o: RendererOptions, ps: seq<ValueParameter>, isInPrimaryConstructor: bool)
    : Result<string, RenderFailure>
  {
    var texts :- RenderAll(ps, ListedValueParameterText(o, isInPrimaryConstructor));
    Success("(" + Join(texts, ", ") + ")")
  }

  /** The supertype list is left out: no supertypes, or only `Any` / `Any?`. */
  predicate TrivialSuperTypes(ts: seq<TypeRef>)
  {
    |ts| == 0 || (|ts| == 1 && (IsAny(ts[0]) || IsNullableAny(ts[0])))
  }

  /** `renderSuperTypes` on a builder holding `before`. */
  function SuperTypesText(o: RendererOptions, isNothing: bool, ts: seq<TypeRef>, before: string)
    : Result<string, RenderFailure>
  {
    if isNothing || TrivialSuperTypes(ts) then Success("")
    else
      var texts :- RenderAll(ts, BoundText(o));
      Success(SpaceIfNeeded(before) + ": " + Join(texts, ", "))
  }

  // ---------------------------------------------------------------------
  // Declarations
  // ---------------------------------------------------------------------

  /** `visitProperty` up to and including `val`/`var`. */
  function PropertyModifiersText(o: RendererOptions, ctx: Context, p: Property): string
  {
    "\n" + ctx.tabs
    + AnnotationsText(o, p.annotations)
    + VisibilityText(o, p.visibility)
    + ModifierText(ConstModifier in o.modifiers && p.isConst, "const")
    + MemberModifiersText(o, p.flags)
    + CallableModalityText(o, p.modality, p.overrides, ctx.containing)
    + OverrideText(o, p.overrides)
    + ModifierText(LateinitModifier in o.modifiers && p.isLateInit, "lateinit")
    + ValVarText(p.isVar)
  }

  /** `visitProperty` */
  function PropertyText(o: RendererOptions, ctx: Context, p: Property): Result<string, RenderFailure>
  {
    var typeParameters :- TypeParametersText(o, p.typeParameters, true);
    var receiver :- ReceiverText(o, p.receiverType, p.receiverAnnotations);
    var returnType :- TypeRefText(o, p.returnType, o.approximateTypes);
    var where :- WhereSuffixText(o, p.typeParameters);
    Success(PropertyModifiersText(o, ctx, p) + typeParameters + receiver + p.name.rendered + ": " + returnType + where)
  }

  /** `visitPropertyAccessor` before the body. */
  function AccessorHeadText(o: RendererOptions, ctx: Context, a: PropertyAccessor): string
  {
    AnnotationsText(o, a.annotations)
    + VisibilityText(o, a.visibility)
    + CallableModalityText(o, a.modality, a.overrides, ctx.containing)
    + MemberModifiersText(o, a.flags)
    + AdditionalModifiersText(a.functionFlags)
    + (if a.isGetter then "get" else "set") + " "
  }

  /** `visitSimpleFunction` up to and including the additional modifiers. */
  function FunctionModifiersText(o: RendererOptions, ctx: Context, f: SimpleFunction): string
  {
    "\n" + ctx.tabs
    + AnnotationsText(o, f.annotations)
    + VisibilityText(o, f.visibility)
    + CallableModalityText(o, f.modality, f.overrides, ctx.containing)
    + MemberModifiersText(o, f.flags)
    + OverrideText(o, f.overrides)
    + AdditionalModifiersText(f.functionFlags)
  }

  /** The declared return type, left out when it is `Unit` and the options do not ask for it. */
  function ReturnTypeText(o: RendererOptions, returnType: TypeRef): Result<string, RenderFailure>
  {
    if o.unitReturnType || !IsUnit(returnType) then
      var t :- TypeRefText(o, returnType, o.approximateTypes);
      Success(": " + t)
    else Success("")
  }

  /** `visitSimpleFunction` without the body. */
  function FunctionHeadText(o: RendererOptions, ctx: Context, f: SimpleFunction): Result<string, RenderFailure>
  {
    var typeParameters :- TypeParametersText(o, f.typeParameters, true);
    var receiver :- ReceiverText(o, f.receiverType, f.receiverAnnotations);
    var parameters :- ValueParametersText(o, f.valueParameters, false);
    var returnType :- ReturnTypeText(o, f.returnType);
    var where :- WhereSuffixText(o, f.typeParameters);
    Success(FunctionModifiersText(o, ctx, f) + "fun " + typeParameters + receiver + f.name.rendered + parameters
            + returnType + where)
  }

  /** `visitAnonymousObject` without the declarations. */
  function AnonymousObjectHeadText(o: RendererOptions, ctx: Context, a: AnonymousObject): Result<string, RenderFailure>
  {
    var head := "\n" + ctx.tabs + AnnotationsText(o, a.annotations) + "object";
    var superTypes :- SuperTypesText(o, false, a.superTypes, head);
    Success(head + superTypes)
  }

  /** `visitConstructor` without the body, inside a class or an enum entry. */
  function ConstructorHeadText(o: RendererOptions, ctx: Context, c: Constructor): Result<string, RenderFailure>
    requires IsClassOrEnumEntry(ctx.containing)
  {
    var typeParameters :- TypeParametersText(o, c.typeParameters, false);
    var parameters :- ValueParametersText(o, c.valueParameters, c.isPrimary);
    var where :- WhereSuffixText(o, c.typeParameters);
    Success("\n" + ctx.tabs + AnnotationsText(o, c.annotations) + "constructor" + " " + ContainerNameText(ctx.containing.value)
            + typeParameters + parameters + where)
  }

  /**
   * The class's modality, left out for an abstract interface and for a final
   * object or enum entry.
   */
  function ClassModalityText(o: RendererOptions, c: RegularClass): string
  {
    var haveNotModality :=
      (c.classKind == Interface && c.modality == Some(Abstract)) || (IsSingleton(c.classKind) && c.modality == Some(Final));
    if haveNotModality || c.modality.None? then "" else ModalityText(o, c.modality.value)
  }

  /** `visitRegularClass` up to and including the classifier keyword. */
  function ClassModifiersText(o: RendererOptions, ctx: Context, c: RegularClass): string
  {
    "\n" + ctx.tabs
    + AnnotationsText(o, c.annotations)
    + (if c.classKind != EnumEntry then VisibilityText(o, c.visibility) else "")
    + ClassModalityText(o, c)
    + MemberModifiersText(o, c.flags)
    + ClassKeywordsText(o, c)
    + ClassifierKindPrefix(c)
  }

  /** The `inner`, `data`, `inline` and `fun` modifiers of a class. */
  function ClassKeywordsText(o: RendererOptions, c: RegularClass): string
  {
    ModifierText(InnerModifier in o.modifiers && c.isInner, "inner")
    + ModifierText(DataModifier in o.modifiers && c.isData, "data")
    + ModifierText(InlineModifier in o.modifiers && c.isInline, "inline")
    + ModifierText(FunModifier in o.modifiers && c.isFun, "fun")
  }

  /** The class's name after its keyword; a companion object's default name is left out. */
  function ClassNameText(c: RegularClass, before: string): string
  {
    if !c.isCompanion || c.name.identifier != DefaultCompanionName then SpaceIfNeeded(before) + c.name.rendered
    else ""
  }

  /** `visitRegularClass` up to and including the name. */
  function ClassNamedText(o: RendererOptions, ctx: Context, c: RegularClass): string
  {
    var modifiers := ClassModifiersText(o, ctx, c);
    modifiers + ClassNameText(c, modifiers)
  }

  /** `visitRegularClass` without the declarations (all of it for an enum entry). */
  function ClassHeadText(o: RendererOptions, ctx: Context, c: RegularClass): Result<string, RenderFailure>
  {
    var named := ClassNamedText(o, ctx, c);
    if c.classKind == EnumEntry then Success(named)
    else
      var tps := OwnTypeParameters(c.typeParameters);
      var typeParameters :- TypeParametersText(o, tps, false);
      var superTypes :- SuperTypesText(o, c.classId == NothingClassId, c.superTypes, named + typeParameters);
      var where :- WhereSuffixText(o, tps);
      Success(named + typeParameters + superTypes + where)
  }

  /** `visitTypeAlias` */
  function TypeAliasText(o: RendererOptions, a: TypeAlias): Result<string, RenderFailure>
  {
    var typeParameters :- TypeParametersText(o, a.typeParameters, false);
    var expanded :- TypeRefText(o, a.expandedType, false);
    Success(AnnotationsText(o, a.annotations) + VisibilityText(o, a.visibility) + MemberModifiersText(o, a.flags)
            + "typealias" + " " + a.name.rendered + typeParameters + " = " + expanded)
  }

  /** A body or member list rendered under `underBlockDeclaration(declaration)`. */
  function BlockText(o: RendererOptions, ctx: Context, declaration: Container, members: seq<Element>)
    : Result<string, RenderFailure>
    decreases members, 1
  {
    var inner :- MembersText(o, BlockContext(ctx, declaration), members);
    Success(Block(ctx.tabs, inner))
  }

  /** `visitRegularClass` once the head is rendered: the declarations follow in a block unless it is an enum entry. */
  function RegularClassText(o: RendererOptions, ctx: Context, c: RegularClass, head: Result<string, RenderFailure>)
    : Result<string, RenderFailure>
    decreases RegularClassNode(c), 2
  {
    var h :- head;
    if c.classKind != EnumEntry && o.renderContainingDeclarations then
      var block :- BlockText(o, ctx, RegularClassContainer(c.name), c.declarations);
      Success(h + block)
    else Success(h)
  }

  /** What accepting `e` appends to the builder, in context `ctx`. */
  function VisitText(o: RendererOptions, ctx: Context, e: Element): Result<string, RenderFailure>
    decreases e, 3
  {
    match e
    case ValueParameterNode(p) =>
      ValueParameterText(o, p, ctx.containing == Some(ConstructorContainer), true)
    case PropertyNode(p) =>
      PropertyText(o, ctx, p)
    case PropertyAccessorNode(a) =>
      if ctx.containing != Some(PropertyContainer) then Failure(AccessorOutsideProperty)
      else if o.renderContainingDeclarations && a.body.BlockBody? then
        var body :- MembersText(o, ctx, a.body.statements);
        Success(AccessorHeadText(o, ctx, a) + body)
      else Success(AccessorHeadText(o, ctx, a))
    case SimpleFunctionNode(f) =>
      var head :- FunctionHeadText(o, ctx, f);
      if o.renderContainingDeclarations && f.body.BlockBody? then
        var block :- BlockText(o, ctx, SimpleFunctionContainer, f.body.statements);
        Success(head + block)
      else Success(head)
    case ThisReceiverNode =>
      Success("this")
    case AnonymousObjectNode(a) =>
      var head :- AnonymousObjectHeadText(o, ctx, a);
      if o.renderContainingDeclarations then
        var block :- BlockText(o, ctx, AnonymousObjectContainer, a.declarations);
        Success(head + block)
      else Success(head)
    case ConstructorNode(c) =>
      if !IsClassOrEnumEntry(ctx.containing) then Failure(ConstructorOutsideClass)
      else
        var head :- ConstructorHeadText(o, ctx, c);
        if o.renderContainingDeclarations && c.body.BlockBody? then
          var block :- BlockText(o, ctx, ConstructorContainer, c.body.statements);
          Success(head + block)
        else Success(head)
    case TypeParameterNode(tp) =>
      TypeParameterText(o, tp, true)
    case RegularClassNode(c) =>
      RegularClassText(o, ctx, c, ClassHeadText(o, ctx, c))
    case TypeAliasNode(a) =>
      TypeAliasText(o, a)
    case OtherNode(children) =>
      MembersText(o, ctx, children)
  }

  /** The elements accepted one after another in the same context. */
  function MembersText(o: RendererOptions, ctx: Context, es: seq<Element>): Result<string, RenderFailure>
    decreases es, 0
  {
    if |es| == 0 then Success("")
    else
      var init :- MembersText(o, ctx, es[..|es| - 1]);
      var last :- VisitText(o, ctx, es[|es| - 1]);
      Success(init + last)
  }

  // ---------------------------------------------------------------------
  // One more element: how the list functions grow
  // ---------------------------------------------------------------------

  lemma RenderAllSnoc<T>(xs: seq<T>, x: T, f: T -> Result<string, RenderFailure>)
    ensures RenderAll(xs + [x], f) ==
      if RenderAll(xs, f).Failure? then RenderAll(xs, f)
      else if f(x).Failure? then Failure(f(x).error)
      else Success(RenderAll(xs, f).value + [f(x).value])
  {
    assert (xs + [x])[..|xs|] == xs;
  }

  lemma RenderAllPrefixStep<T>(xs: seq<T>, i: nat, f: T -> Result<string, RenderFailure>)
    requires i < |xs|
    ensures RenderAll(xs[..i + 1], f) ==
      if RenderAll(xs[..i], f).Failure? then RenderAll(xs[..i], f)
      else if f(xs[i]).Failure? then Failure(f(xs[i]).error)
      else Success(RenderAll(xs[..i], f).value + [f(xs[i]).value])
  {
    assert xs[..i + 1] == xs[..i] + [xs[i]];
    RenderAllSnoc(xs[..i], xs[i], f);
  }

  /** Once a prefix fails, every extension of it fails with the same failure. */
  lemma {:induction false} RenderAllFailureExtends<T>(xs: seq<T>, ys: seq<T>, f: T -> Result<string, RenderFailure>)
    requires RenderAll(xs, f).Failure?
    ensures RenderAll(xs + ys, f) == RenderAll(xs, f)
    decreases |ys|
  {
    if |ys| > 0 {
      var init := ys[..|ys| - 1];
      RenderAllFailureExtends(xs, init, f);
      assert xs + ys == (xs + init) + [ys[|ys| - 1]];
      RenderAllSnoc(xs + init, ys[|ys| - 1], f);
    } else {
      assert xs + ys == xs;
    }
  }

  lemma RenderAllPrefixFailure<T>(xs: seq<T>, i: nat, f: T -> Result<string, RenderFailure>)
    requires i <= |xs| && RenderAll(xs[..i], f).Failure?
    ensures RenderAll(xs, f) == RenderAll(xs[..i], f)
  {
    assert xs == xs[..i] + xs[i..];
    RenderAllFailureExtends(xs[..i], xs[i..], f);
  }

  lemma {:induction false} RenderAllLength<T>(xs: seq<T>, f: T -> Result<string, RenderFailure>)
    requires RenderAll(xs, f).Success?
    ensures |RenderAll(xs, f).value| == |xs|
  {
    if |xs| > 0 {
      RenderAllLength(xs[..|xs| - 1], f);
    }
  }

  lemma ListedBoundsStep(bounds: seq<TypeRef>, i: nat)
    requires i < |bounds|
    ensures ListedBounds(bounds[..i + 1]) ==
      ListedBounds(bounds[..i]) + (if IsNullableAny(bounds[i]) then [] else [bounds[i]])
  {
    assert bounds[..i + 1][..i] == bounds[..i];
  }

  lemma {:induction false} ListedBoundsAppend(xs: seq<TypeRef>, ys: seq<TypeRef>)
    ensures ListedBounds(xs + ys) == ListedBounds(xs) + ListedBounds(ys)
    decreases |ys|
  {
    if |ys| == 0 {
      assert xs + ys == xs;
    } else {
      var init := ys[..|ys| - 1];
      ListedBoundsAppend(xs, init);
      assert (xs + ys)[..|xs + ys| - 1] == xs + init;
    }
  }

  lemma BoundsWrittenSnoc(parts: seq<string>, t: string)
    ensures BoundsWritten(parts + [t]) == BoundsWritten(parts) + (if |parts| == 0 then " : " else " & ") + t
  {
    JoinSnoc(parts, t, " & ");
    if |parts| > 0 {
      AppendThree(" : ", Join(parts, " & "), " & ", t);
    }
  }

  /** Once a prefix of the listed bounds fails, all the bounds fail the same way. */
  lemma ListedBoundsPrefixFailure(o: RendererOptions, bounds: seq<TypeRef>, i: nat)
    requires i <= |bounds| && RenderAll(ListedBounds(bounds[..i]), BoundText(o)).Failure?
    ensures AllBoundsText(o, bounds) == Failure(RenderAll(ListedBounds(bounds[..i]), BoundText(o)).error)
  {
    ListedBoundsAppend(bounds[..i], bounds[i..]);
    assert bounds[..i] + bounds[i..] == bounds;
    RenderAllFailureExtends(ListedBounds(bounds[..i]), ListedBounds(bounds[i..]), BoundText(o));
  }

  /** One iteration of the bounds loop: `Any?` is skipped, a failing bound fails them all. */
  lemma BoundsStep(o: RendererOptions, bounds: seq<TypeRef>, i: nat, parts: seq<string>)
    requires i < |bounds| && RenderAll(ListedBounds(bounds[..i]), BoundText(o)) == Success(parts)
    ensures IsNullableAny(bounds[i]) ==> RenderAll(ListedBounds(bounds[..i + 1]), BoundText(o)) == Success(parts)
    ensures !IsNullableAny(bounds[i]) && TypeRefText(o, bounds[i], false).Success? ==>
      RenderAll(ListedBounds(bounds[..i + 1]), BoundText(o)) == Success(parts + [TypeRefText(o, bounds[i], false).value])
    ensures !IsNullableAny(bounds[i]) && TypeRefText(o, bounds[i], false).Failure? ==>
      AllBoundsText(o, bounds) == Failure(TypeRefText(o, bounds[i], false).error)
  {
    ListedBoundsStep(bounds, i);
    if IsNullableAny(bounds[i]) {
      assert ListedBounds(bounds[..i + 1]) == ListedBounds(bounds[..i]);
    } else {
      RenderAllSnoc(ListedBounds(bounds[..i]), bounds[i], BoundText(o));
      assert BoundText(o)(bounds[i]) == TypeRefText(o, bounds[i], false);
      if TypeRefText(o, bounds[i], false).Failure? {
        ListedBoundsPrefixFailure(o, bounds, i + 1);
      }
    }
  }

  lemma WhereEntriesStep(o: RendererOptions, tps: seq<TypeParameter>, i: nat)
    requires i < |tps|
    ensures WhereEntries(o, tps[..i + 1]) ==
      if WhereEntries(o, tps[..i]).Failure? then WhereEntries(o, tps[..i])
      else
        var entries := RenderAll(DropFirst(tps[i].bounds), WhereEntryText(o, tps[i].name));
        if entries.Failure? then Failure(entries.error)
        else Success(WhereEntries(o, tps[..i]).value + entries.value)
  {
    assert tps[..i + 1][..i] == tps[..i];
  }

  lemma {:induction false} WhereEntriesFailurePersists(o: RendererOptions, tps: seq<TypeParameter>, m: nat, n: nat)
    requires m <= n <= |tps| && WhereEntries(o, tps[..m]).Failure?
    ensures WhereEntries(o, tps[..n]) == WhereEntries(o, tps[..m])
    decreases n
  {
    if m < n {
      WhereEntriesFailurePersists(o, tps, m, n - 1);
      assert tps[..n][..n - 1] == tps[..n - 1];
    }
  }

  lemma MembersStep(o: RendererOptions, ctx: Context, es: seq<Element>, i: nat)
    requires i < |es|
    ensures MembersText(o, ctx, es[..i + 1]) ==
      if MembersText(o, ctx, es[..i]).Failure? then MembersText(o, ctx, es[..i])
      else if VisitText(o, ctx, es[i]).Failure? then Failure(VisitText(o, ctx, es[i]).error)
      else Success(MembersText(o, ctx, es[..i]).value + VisitText(o, ctx, es[i]).value)
  {
    assert es[..i + 1][..i] == es[..i];
  }

  lemma {:induction false} MembersFailurePersists(o: RendererOptions, ctx: Context, es: seq<Element>, m: nat, n: nat)
    requires m <= n <= |es| && MembersText(o, ctx, es[..m]).Failure?
    ensures MembersText(o, ctx, es[..n]) == MembersText(o, ctx, es[..m])
    decreases n
  {
    if m < n {
      MembersFailurePersists(o, ctx, es, m, n - 1);
      assert es[..n][..n - 1] == es[..n - 1];
    }
  }

  /** `renderSpaceIfNeeded` only looks at the last character, so a non-empty text of its own decides. */
  lemma SpaceIfNeededLocal(data: string, local: string)
    requires |local| > 0
    ensures SpaceIfNeeded(data + local) == SpaceIfNeeded(local)
  {
    assert (data + local)[|data + local| - 1] == local[|local| - 1];
  }

  lemma SuperTypesTextLocal(o: RendererOptions, isNothing: bool, ts: seq<TypeRef>, data: string, local: string)
    requires |local| > 0
    ensures SuperTypesText(o, isNothing, ts, data + local) == SuperTypesText(o, isNothing, ts, local)
  {
    SpaceIfNeededLocal(data, local);
  }

  lemma ClassNameTextLocal(c: RegularClass, data: string, local: string)
    requires |local| > 0
    ensures ClassNameText(c, data + local) == ClassNameText(c, local)
  {
    SpaceIfNeededLocal(data, local);
  }

  /** The class modifiers start on a fresh line, so they are never empty. */
  lemma ClassModifiersNotEmpty(o: RendererOptions, ctx: Context, c: RegularClass)
    ensures |ClassModifiersText(o, ctx, c)| > 0
    ensures |ClassNamedText(o, ctx, c)| > 0
  {
  }

  /** A builder holding `data`, after `text` was appended to it (or the failure that stopped it). */
  function AppendedTo(data: string, text: Result<string, RenderFailure>): Result<string, RenderFailure>
  {
    if text.Failure? then Failure(text.error) else Success(data + text.value)
  }

  /** `visitRegularClass` case by case: a failed head, the head alone, or the head followed by its block. */
  lemma RegularClassVisit(o: RendererOptions, ctx: Context, c: RegularClass)
    ensures ClassHeadText(o, ctx, c).Failure? ==>
      VisitText(o, ctx, RegularClassNode(c)) == Failure(ClassHeadText(o, ctx, c).error)
    ensures ClassHeadText(o, ctx, c).Success? && (c.classKind == EnumEntry || !o.renderContainingDeclarations) ==>
      VisitText(o, ctx, RegularClassNode(c)) == ClassHeadText(o, ctx, c)
    ensures ClassHeadText(o, ctx, c).Success? && c.classKind != EnumEntry && o.renderContainingDeclarations ==>
      VisitText(o, ctx, RegularClassNode(c))
        == AppendedTo(ClassHeadText(o, ctx, c).value, BlockText(o, ctx, RegularClassContainer(c.name), c.declarations))
  {
    RegularClassUnfold(o, ctx, c);
    RegularClassCases(o, ctx, c, ClassHeadText(o, ctx, c));
  }

  lemma RegularClassUnfold(o: RendererOptions, ctx: Context, c: RegularClass)
    ensures VisitText(o, ctx, RegularClassNode(c)) == RegularClassText(o, ctx, c, ClassHeadText(o, ctx, c))
  {
  }

  lemma RegularClassCases(o: RendererOptions, ctx: Context, c: RegularClass, head: Result<string, RenderFailure>)
    ensures head.Failure? ==> RegularClassText(o, ctx, c, head) == Failure(head.error)
    ensures head.Success? && (c.classKind == EnumEntry || !o.renderContainingDeclarations) ==>
      RegularClassText(o, ctx, c, head) == head
    ensures head.Success? && c.classKind != EnumEntry && o.renderContainingDeclarations ==>
      RegularClassText(o, ctx, c, head)
        == AppendedTo(head.value, BlockText(o, ctx, RegularClassContainer(c.name), c.declarations))
  {
  }

  /** The characters `render` trims from both ends of the text. */
  const TrimmedChars: set<char> := {' ', '\n', '\t'}

  /** `FirRenderer.render`: the declaration rendered at no indentation, then trimmed. */
  function RenderText(o: RendererOptions, containing: Option<Container>, declaration: Element)
    : Result<string, RenderFailure>
  {
    var text :- VisitText(o, Context(containing, ""), declaration);
    Success(Trim(text, TrimmedChars))
  }
}
