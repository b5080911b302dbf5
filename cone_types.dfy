/**
 * The cone types the type renderer walks over.
 *
 * The facts the renderer asks the compiler session for (whether a class-like
 * type is a built-in function type, its receiver, parameter and return types,
 * and which regular class it resolves to) are carried on the type itself as
 * precomputed data: `functional` is present exactly when the session reports
 * the type as a built-in function type, and `resolved` is present exactly when
 * the class symbol (after type-alias expansion) is a regular class.
 */
module ConeTypes {
  import opened Wrappers

  datatype ProjectionKind = Star | In | Out | Invariant

  /** A type argument: its projection kind and its type (absent for `*`). */
  datatype TypeProjection = TypeProjection(kind: ProjectionKind, projected: Option<ConeType>)

  /**
   * An entry of a class's type-parameter list: a parameter the class declares
   * itself, or a reference to a parameter of an outer class.
   */
  datatype TypeParameterRef = OwnTypeParameter | OuterClassTypeParameter

  /** One step of a class's designation (the chain of enclosing declarations). */
  datatype DesignationEntry =
    | RegularClassEntry(name: string, typeParameters: seq<TypeParameterRef>)
    | OtherEntry

  /** The regular class a class-like type resolves to. */
  datatype ResolvedClass = ResolvedClass(packageName: string, isLocal: bool, designation: seq<DesignationEntry>)

  /** What the session reports about a built-in function type. */
  datatype FunctionalView = FunctionalView(
    isSuspend: bool,
    receiver: Option<ConeType>,
    parameterTypesIncludingReceiver: seq<Option<ConeType>>,
    returnType: Option<ConeType>)

  datatype ConeType =
    | ErrorType(isMarkedNullable: bool)
    | ClassLikeType(
        arguments: seq<TypeProjection>,
        isMarkedNullable: bool,
        classId: string,
        resolved: Option<ResolvedClass>,
        functional: Option<FunctionalView>)
    | TypeParameterType(name: string, isMarkedNullable: bool)
    | IntersectionType(intersectedTypes: seq<ConeType>, isMarkedNullable: bool)
    | FlexibleType(lowerBound: ConeType, upperBound: ConeType, isMarkedNullable: bool)
    | OtherType(isMarkedNullable: bool)

  /** `isBuiltinFunctionalType(session)` */
  predicate IsBuiltinFunctionalType(t: ConeType)
  {
    t.ClassLikeType? && t.functional.Some?
  }

  /** `isSuspendFunctionType(session)` */
  predicate IsSuspendFunctionType(t: ConeType)
  {
    IsBuiltinFunctionalType(t) && t.functional.value.isSuspend
  }

  /** The same type with its nullability mark set to `nullable`. */
  function WithNullability(t: ConeType, nullable: bool): (r: ConeType)
    ensures r.isMarkedNullable == nullable
  {
    match t
    case ErrorType(_) => ErrorType(nullable)
    case ClassLikeType(args, _, id, res, fv) => ClassLikeType(args, nullable, id, res, fv)
    case TypeParameterType(name, _) => TypeParameterType(name, nullable)
    case IntersectionType(ts, _) => IntersectionType(ts, nullable)
    case FlexibleType(lo, up, _) => FlexibleType(lo, up, nullable)
    case OtherType(_) => OtherType(nullable)
  }
}
