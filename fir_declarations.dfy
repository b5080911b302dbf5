/**
 * The resolved declarations the declaration renderer walks over, and its options.
 *
 * Facts the renderer asks the compiler for are carried on the nodes as
 * precomputed data: the escaped text of a name (`rendered`), the rendered
 * text of a declaration's annotations, the public approximation of a type,
 * and whether a callable carries the `override` keyword in its syntax.
 */
module FirDeclarations {
  import opened Wrappers
  import opened ConeTypes
  import ConeTypeRenderer

  /** A name: its identifier and its escaped rendering (`name.render()`). */
  datatype Name = Name(identifier: string, rendered: string)

  /** The name a companion object gets when its declaration names none. */
  const DefaultCompanionName := "Companion"

  datatype Visibility =
    | Public | Private | PrivateToThis | Protected | Internal | Local | Inherited | InvisibleFake | UnknownVisibility

  /** `Visibilities.DEFAULT_VISIBILITY` */
  const DefaultVisibility := Public

  /** `internalDisplayName` */
  function InternalDisplayName(v: Visibility): string
  {
    match v
    case Public => "public"
    case Private => "private"
    case PrivateToThis => "private/*private to this*/"
    case Protected => "protected"
    case Internal => "internal"
    case Local => "local"
    case Inherited => "inherited"
    case InvisibleFake => "invisible_fake"
    case UnknownVisibility => "unknown"
  }

  datatype Modality = Final | Sealed | Open | Abstract

  /** `modality.name.toLowerCaseAsciiOnly()` */
  function ModalityKeyword(m: Modality): string
  {
    match m
    case Final => "final"
    case Sealed => "sealed"
    case Open => "open"
    case Abstract => "abstract"
  }

  datatype ClassKind = Class | Interface | EnumClass | EnumEntry | AnnotationClass | Object

  /** `ClassKind.isSingleton` */
  predicate IsSingleton(k: ClassKind)
  {
    k == Object || k == EnumEntry
  }

  datatype Variance = InvariantVariance | InVariance | OutVariance

  /** `variance.label` */
  function VarianceLabel(v: Variance): string
  {
    match v
    case InvariantVariance => ""
    case InVariance => "in"
    case OutVariance => "out"
  }

  /** `RendererModifier`: which parts of a declaration the options ask to render. */
  datatype RendererModifier =
    | VisibilityModifier | ModalityModifier | OverrideModifier | AnnotationsModifier | InnerModifier
    | MemberKindModifier | DataModifier | InlineModifier | ExpectModifier | ActualModifier
    | ConstModifier | LateinitModifier | FunModifier | ValueModifier

  /**
   * `FirRendererOptions`; `normalize` stands for `Visibility.normalize()`,
   * which lives outside the renderer.
   */
  datatype RendererOptions = RendererOptions(
    modifiers: set<RendererModifier>,
    renderContainingDeclarations: bool,
    approximateTypes: bool,
    unitReturnType: bool,
    normalizedVisibilities: bool,
    normalize: Visibility -> Visibility,
    typeOptions: ConeTypeRenderer.TypeRendererOptions)

  /**
   * A resolved type reference: its cone type, the public approximation of
   * that type when there is one, and the rendered text of its annotations.
   */
  datatype TypeRef = TypeRef(coneType: ConeType, approximation: Option<ConeType>, annotations: string)

  const UnitClassId := "kotlin/Unit"
  const AnyClassId := "kotlin/Any"
  const NothingClassId := "kotlin/Nothing"

  /** The built-in class-like type `classId` with nullability `nullable`. */
  predicate IsBuiltinType(t: TypeRef, classId: string, nullable: bool)
  {
    t.coneType.ClassLikeType? && t.coneType.classId == classId && t.coneType.isMarkedNullable == nullable
  }

  predicate IsUnit(t: TypeRef) { IsBuiltinType(t, UnitClassId, false) }
  predicate IsAny(t: TypeRef) { IsBuiltinType(t, AnyClassId, false) }
  predicate IsNullableAny(t: TypeRef) { IsBuiltinType(t, AnyClassId, true) }

  datatype TypeParameter = TypeParameter(
    name: Name,
    isReified: bool,
    variance: Variance,
    annotations: string,
    bounds: seq<TypeRef>)

  /** An entry of a class's type-parameter list: its own parameter, or one of an outer class. */
  datatype ClassTypeParameter = OwnParameter(parameter: TypeParameter) | OuterParameter(parameter: TypeParameter)

  /** `typeParameters.filterIsInstance<FirTypeParameter>()`: the class's own parameters, in order. */
  function OwnTypeParameters(tps: seq<ClassTypeParameter>): (r: seq<TypeParameter>)
    ensures |r| <= |tps|
  {
    if |tps| == 0 then []
    else
      OwnTypeParameters(tps[..|tps| - 1]) +
      (if tps[|tps| - 1].OwnParameter? then [tps[|tps| - 1].parameter] else [])
  }

  datatype ValueParameter = ValueParameter(
    annotations: string,
    isCrossinline: bool,
    isNoinline: bool,
    isVararg: bool,
    isVar: bool,
    name: Name,
    returnType: TypeRef,
    hasDefaultValue: bool)

  /** `isExternal`, `isExpect` and `isActual` of a member declaration. */
  datatype MemberFlags = MemberFlags(isExternal: bool, isExpect: bool, isActual: bool)

  /** The modifiers `renderAdditionalModifiers` looks at. */
  datatype FunctionFlags = FunctionFlags(isTailRec: bool, isSuspend: bool, isInline: bool, isInfix: bool,
                                         isOperator: bool)

  /**
   * The declaration the renderer is inside of (`containingDeclaration`), as
   * far as the renderer tells them apart.
   */
  datatype Container =
    | RegularClassContainer(name: Name)
    | AnonymousObjectContainer
    | EnumEntryContainer(name: Name)
    | ConstructorContainer
    | PropertyContainer
    | SimpleFunctionContainer
    | OtherDeclarationContainer

  /** `FirClass` or `FirEnumEntry`: the containers a constructor may be rendered in. */
  predicate IsClassOrEnumEntry(c: Option<Container>)
  {
    c.Some? && (c.value.RegularClassContainer? || c.value.AnonymousObjectContainer? || c.value.EnumEntryContainer?)
  }

  /**
   * A node of the resolved tree, as the renderer's visitor dispatches on it.
   * A body (a `FirBlock`) is the sequence of its statements: accepting a block
   * falls through to `visitElement`, which visits the statements in order.
   */
  datatype Element =
    | ValueParameterNode(parameter: ValueParameter)
    | PropertyNode(property: Property)
    | PropertyAccessorNode(accessor: PropertyAccessor)
    | SimpleFunctionNode(simpleFunction: SimpleFunction)
    | ThisReceiverNode
    | AnonymousObjectNode(anonymousObject: AnonymousObject)
    | ConstructorNode(constructorDeclaration: Constructor)
    | TypeParameterNode(typeParameter: TypeParameter)
    | RegularClassNode(regularClass: RegularClass)
    | TypeAliasNode(typeAlias: TypeAlias)
      /** Any other element (a block, an expression, an enum entry, ...): only its children are visited. */
    | OtherNode(children: seq<Element>)

  /** The body of a function, an accessor or a constructor: absent, or a block of statements. */
  datatype Body = NoBody | BlockBody(statements: seq<Element>)

  datatype Property = Property(
    annotations: string,
    visibility: Visibility,
    isConst: bool,
    flags: MemberFlags,
    modality: Option<Modality>,
    overrides: bool,
    isLateInit: bool,
    isVar: bool,
    typeParameters: seq<TypeParameter>,
    receiverType: Option<TypeRef>,
    receiverAnnotations: string,
    name: Name,
    returnType: TypeRef)

  datatype PropertyAccessor = PropertyAccessor(
    annotations: string,
    visibility: Visibility,
    modality: Option<Modality>,
    overrides: bool,
    flags: MemberFlags,
    functionFlags: FunctionFlags,
    isGetter: bool,
    body: Body)

  datatype SimpleFunction = SimpleFunction(
    annotations: string,
    visibility: Visibility,
    modality: Option<Modality>,
    flags: MemberFlags,
    overrides: bool,
    functionFlags: FunctionFlags,
    typeParameters: seq<TypeParameter>,
    receiverType: Option<TypeRef>,
    receiverAnnotations: string,
    name: Name,
    valueParameters: seq<ValueParameter>,
    returnType: TypeRef,
    body: Body)

  datatype AnonymousObject = AnonymousObject(
    annotations: string,
    superTypes: seq<TypeRef>,
    declarations: seq<Element>)

  datatype Constructor = Constructor(
    annotations: string,
    typeParameters: seq<TypeParameter>,
    valueParameters: seq<ValueParameter>,
    isPrimary: bool,
    body: Body)

  datatype RegularClass = RegularClass(
    annotations: string,
    visibility: Visibility,
    modality: Option<Modality>,
    classKind: ClassKind,
    isCompanion: bool,
    flags: MemberFlags,
    isInner: bool,
    isData: bool,
    isInline: bool,
    isFun: bool,
    name: Name,
    classId: string,
    typeParameters: seq<ClassTypeParameter>,
    superTypes: seq<TypeRef>,
    declarations: seq<Element>)

  datatype TypeAlias = TypeAlias(
    annotations: string,
    visibility: Visibility,
    flags: MemberFlags,
    name: Name,
    typeParameters: seq<TypeParameter>,
    expandedType: TypeRef)
}
