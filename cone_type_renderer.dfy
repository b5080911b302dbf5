/**
 * The cone type renderer: turns a cone type into the text the IDE shows.
 *
 * The text a type renders to is specified by the function `TypeText`; the
 * methods `RenderType`, `RenderTypeConstructorAndArguments` and
 * `RenderFunctionType` build the same text step by step the way the renderer
 * does, and are proved to produce exactly `TypeText`.
 *
 * Rendering can throw: rendering the arguments of one level of a class chain
 * slices the argument array, and the slice fails when the chain's own type
 * parameters outnumber the arguments. Every text is therefore an `Option`,
 * `None` standing for that exception.
 */
module ConeTypeRenderer {
  import opened Wrappers
  import opened Text
  import opened ConeTypes

  /** The renderer options; absent options behave like `shortQualifiedNames == false`. */
  datatype TypeRendererOptions = TypeRendererOptions(shortQualifiedNames: bool)

  const Unknown := "???"

  function NullabilityMark(t: ConeType): string
  {
    if t.isMarkedNullable then "?" else ""
  }

  /** `shouldRenderAsPrettyFunctionType`: a built-in function type without star arguments. */
  predicate ShouldRenderAsPrettyFunctionType(t: ConeType)
  {
    IsBuiltinFunctionalType(t) && forall i :: 0 <= i < |t.arguments| ==> t.arguments[i].kind != Star
  }

  // ---------------------------------------------------------------------
  // Specification of `renderType`
  // ---------------------------------------------------------------------

  /** The text `renderType(t)` produces (without annotations); `None` when it throws. */
  function TypeText(o: TypeRendererOptions, t: ConeType): Option<string>
    decreases t, 4, 1
  {
    var body :- BodyText(o, t);
    Some(body + NullabilityMark(t))
  }

  /** The text of the `when` over the kinds of type, before the nullability mark. */
  function BodyText(o: TypeRendererOptions, t: ConeType): Option<string>
    decreases t, 4, 0
  {
    match t
    case ErrorType(_) => Some(Unknown)
    case ClassLikeType(_, _, _, _, _) =>
      if ShouldRenderAsPrettyFunctionType(t) then FunctionTypeText(o, t) else ClassifierText(o, t)
    case TypeParameterType(name, _) => Some(name)
    case IntersectionType(ts, _) =>
      var parts :- RenderedTypes(o, ts);
      Some("(" + Join(parts, "&") + ")")
    case FlexibleType(lower, upper, _) =>
      var l :- TypeText(o, lower);
      var u :- TypeText(o, upper);
      Some(RenderFlexibleType(l, u))
    case OtherType(_) => Some(Unknown)
  }

  /** The texts of a list of types, in order; `None` as soon as one of them throws. */
  function RenderedTypes(o: TypeRendererOptions, ts: seq<ConeType>): Option<seq<string>>
    decreases ts, 0, 0
  {
    if |ts| == 0 then Some([])
    else
      var init :- RenderedTypes(o, ts[..|ts| - 1]);
      var last :- TypeText(o, ts[|ts| - 1]);
      Some(init + [last])
  }

  /** `renderTypeProjection` */
  function RenderTypeProjection(o: TypeRendererOptions, p: TypeProjection): Option<string>
    decreases p, 5, 0
  {
    var text :- if p.projected.Some? then TypeText(o, p.projected.value) else Some(Unknown);
    Some(match p.kind
         case Star => "*"
         case In => "in " + text
         case Out => "out " + text
         case Invariant => text)
  }

  /** Number of type parameters a class declares itself (references to outer ones excluded). */
  function OwnTypeParameterCount(tps: seq<TypeParameterRef>): nat
  {
    if |tps| == 0 then 0
    else OwnTypeParameterCount(tps[..|tps| - 1]) + (if tps[|tps| - 1].OwnTypeParameter? then 1 else 0)
  }

  /** Arguments consumed by the regular classes of a designation prefix. */
  function ConsumedArguments(design: seq<DesignationEntry>): nat
  {
    if |design| == 0 then 0
    else
      ConsumedArguments(design[..|design| - 1]) +
      match design[|design| - 1]
      case RegularClassEntry(_, tps) => OwnTypeParameterCount(tps)
      case OtherEntry => 0
  }

  /** Regular classes in a designation prefix. */
  function RegularEntryCount(design: seq<DesignationEntry>): nat
  {
    if |design| == 0 then 0
    else RegularEntryCount(design[..|design| - 1]) + (if design[|design| - 1].RegularClassEntry? then 1 else 0)
  }

  /** The texts of the arguments `from until to` of a class-like type, in order. */
  function ArgumentTexts(o: TypeRendererOptions, t: ConeType, from: nat, to: nat): Option<seq<string>>
    requires t.ClassLikeType? && to <= |t.arguments|
    decreases t, 0, to
  {
    if to <= from then Some([])
    else
      var init :- ArgumentTexts(o, t, from, to - 1);
      var last :- RenderTypeProjection(o, t.arguments[to - 1]);
      Some(init + [last])
  }

  /** The bracketed arguments `from until to` of a class-like type (the local `renderTypeArguments`). */
  function ArgumentRangeText(o: TypeRendererOptions, t: ConeType, from: nat, to: nat): Option<string>
    requires t.ClassLikeType?
    decreases t, 1, 0
  {
    if to <= from then Some("")
    else if to > |t.arguments| then None
    else
      var parts :- ArgumentTexts(o, t, from, to);
      Some("<" + Join(parts, ", ") + ">")
  }

  /** The names (with their arguments) of the first `n` entries of the designation, dot-separated. */
  function ChainText(o: TypeRendererOptions, t: ConeType, n: nat): Option<string>
    requires t.ClassLikeType? && t.resolved.Some? && n <= |t.resolved.value.designation|
    decreases t, 2, n
  {
    if n == 0 then Some("")
    else
      var design := t.resolved.value.designation;
      var prev :- ChainText(o, t, n - 1);
      match design[n - 1]
      case OtherEntry => Some(prev)
      case RegularClassEntry(name, tps) =>
        var from := ConsumedArguments(design[..n - 1]);
        var arguments :- ArgumentRangeText(o, t, from, from + OwnTypeParameterCount(tps));
        Some(prev + (if RegularEntryCount(design[..n - 1]) > 0 then "." else "") + name + arguments)
  }

  /** The text `renderTypeConstructorAndArguments` appends. */
  function ClassifierText(o: TypeRendererOptions, t: ConeType): Option<string>
    requires t.ClassLikeType?
    decreases t, 3, 0
  {
    match t.resolved
    case None => Some(Unknown)
    case Some(c) =>
      var chain :- ChainText(o, t, |c.designation|);
      Some((if !c.isLocal && o.shortQualifiedNames then c.packageName + "." else "") + chain)
  }

  /** The receiver part of a function type, `R.` or `(R).`, empty without a receiver. */
  function ReceiverText(o: TypeRendererOptions, t: ConeType): Option<string>
    requires IsBuiltinFunctionalType(t)
    decreases t, 2, 0
  {
    match t.functional.value.receiver
    case None => Some("")
    case Some(receiver) =>
      var text :- TypeText(o, receiver);
      var surround := (ShouldRenderAsPrettyFunctionType(receiver) && !receiver.isMarkedNullable)
                      || IsSuspendFunctionType(receiver);
      Some(if surround then "(" + text + ")" + "." else text + ".")
  }

  /** The rendered parameter types among the first `n` entries, skipping absent ones and the receiver slot. */
  function ParameterTexts(o: TypeRendererOptions, t: ConeType, n: nat): Option<seq<string>>
    requires IsBuiltinFunctionalType(t) && n <= |t.functional.value.parameterTypesIncludingReceiver|
    decreases t, 2, n
  {
    if n == 0 then Some([])
    else
      var prev :- ParameterTexts(o, t, n - 1);
      var fv := t.functional.value;
      var p := fv.parameterTypesIncludingReceiver[n - 1];
      if p.None? || (n - 1 == 0 && fv.receiver.Some?) then Some(prev)
      else
        var text :- TypeText(o, p.value);
        Some(prev + [text])
  }

  /** The text `renderFunctionType` appends. */
  function FunctionTypeText(o: TypeRendererOptions, t: ConeType): Option<string>
    requires IsBuiltinFunctionalType(t)
    decreases t, 3, 0
  {
    var fv := t.functional.value;
    var receiver :- ReceiverText(o, t);
    var parameters :- ParameterTexts(o, t, |fv.parameterTypesIncludingReceiver|);
    var returned :- if fv.returnType.Some? then TypeText(o, fv.returnType.value) else Some(Unknown);
    Some(OpeningParenthesis(t) + SuspendModifier(t) + receiver + "(" + Join(parameters, ", ") + ") -> " + returned
         + ClosingParenthesis(t) + NullabilityMark(t))
  }

  /** A nullable function type is wrapped in parentheses before its mark. */
  function OpeningParenthesis(t: ConeType): string
  {
    if t.isMarkedNullable then "(" else ""
  }

  function ClosingParenthesis(t: ConeType): string
  {
    if t.isMarkedNullable then ")" else ""
  }

  function SuspendModifier(t: ConeType): string
    requires IsBuiltinFunctionalType(t)
  {
    if t.functional.value.isSuspend then "suspend " else ""
  }

  /** The texts of a list of type projections, in order. */
  function ProjectionTexts(o: TypeRendererOptions, ps: seq<TypeProjection>): Option<seq<string>>
  {
    if |ps| == 0 then Some([])
    else
      var init :- ProjectionTexts(o, ps[..|ps| - 1]);
      var last :- RenderTypeProjection(o, ps[|ps| - 1]);
      Some(init + [last])
  }

  /** `renderTypeArguments(typeArguments)`: empty for no arguments, otherwise `<a1, a2, ...>`. */
  function RenderTypeArguments(o: TypeRendererOptions, arguments: seq<TypeProjection>): Option<string>
  {
    if |arguments| == 0 then Some("")
    else
      var parts :- ProjectionTexts(o, arguments);
      Some("<" + Join(parts, ", ") + ">")
  }

  // ---------------------------------------------------------------------
  // Flexible types
  // ---------------------------------------------------------------------

  /** `differsOnlyInNullability` */
  predicate DiffersOnlyInNullability(lower: string, upper: string)
  {
    lower == RemoveAll(upper, '?') || (EndsWith(upper, "?") && lower + "?" == upper) || "(" + lower + ")?" == upper
  }

  /** `replacePrefixes`: folds two renderings that agree after their respective prefixes. */
  function ReplacePrefixes(lowerRendered: string, lowerPrefix: string, upperRendered: string,
                           upperPrefix: string, foldedPrefix: string): (r: Option<string>)
    ensures r.Some? <==>
      StartsWith(lowerRendered, lowerPrefix) && StartsWith(upperRendered, upperPrefix) &&
      (lowerRendered[|lowerPrefix|..] == upperRendered[|upperPrefix|..] ||
       DiffersOnlyInNullability(lowerRendered[|lowerPrefix|..], upperRendered[|upperPrefix|..]))
    ensures r.Some? ==>
      r.value == foldedPrefix + lowerRendered[|lowerPrefix|..]
                 + (if lowerRendered[|lowerPrefix|..] == upperRendered[|upperPrefix|..] then "" else "!")
  {
    if StartsWith(lowerRendered, lowerPrefix) && StartsWith(upperRendered, upperPrefix) then
      var lowerWithoutPrefix := lowerRendered[|lowerPrefix|..];
      var upperWithoutPrefix := upperRendered[|upperPrefix|..];
      var flexibleCollectionName := foldedPrefix + lowerWithoutPrefix;
      if lowerWithoutPrefix == upperWithoutPrefix then Some(flexibleCollectionName)
      else if DiffersOnlyInNullability(lowerWithoutPrefix, upperWithoutPrefix) then Some(flexibleCollectionName + "!")
      else None
    else None
  }

  const KotlinCollectionsPrefix := "kotlin.collections."
  const MutablePrefix := "Mutable"
  const KotlinPrefix := "kotlin."

  function SimpleCollectionFold(l: string, u: string): Option<string>
  {
    ReplacePrefixes(l, KotlinCollectionsPrefix + MutablePrefix, u, KotlinCollectionsPrefix,
                    KotlinCollectionsPrefix + "(" + MutablePrefix + ")")
  }

  function MutableEntryFold(l: string, u: string): Option<string>
  {
    ReplacePrefixes(l, KotlinCollectionsPrefix + "MutableMap.MutableEntry", u, KotlinCollectionsPrefix + "Map.Entry",
                    KotlinCollectionsPrefix + "(Mutable)Map.(Mutable)Entry")
  }

  function ArrayFold(l: string, u: string): Option<string>
  {
    ReplacePrefixes(l, KotlinPrefix + "Array<", u, KotlinPrefix + "Array<out ", KotlinPrefix + "Array<(out) ")
  }

  /** `renderFlexibleType(lowerRendered, upperRendered)` */
  function RenderFlexibleType(l: string, u: string): string
  {
    if DiffersOnlyInNullability(l, u) then
      (if StartsWith(u, "(") then "(" + l + ")!" else l + "!")
    else if SimpleCollectionFold(l, u).Some? then SimpleCollectionFold(l, u).value
    else if MutableEntryFold(l, u).Some? then MutableEntryFold(l, u).value
    else if ArrayFold(l, u).Some? then ArrayFold(l, u).value
    else "(" + l + ".." + u + ")"
  }

  // ---------------------------------------------------------------------
  // The renderer, step by step
  // ---------------------------------------------------------------------

  function AnnotationsText(annotations: Option<string>): string
  {
    if annotations.Some? then annotations.value else ""
  }

  /**
   * `renderType(type, annotations)`: the rendered annotations (when given)
   * followed by exactly the text `TypeText` specifies; fails exactly when
   * `TypeText` does.
   */
  method RenderType(o: TypeRendererOptions, t: ConeType, annotations: Option<string>) returns (r: Option<string>)
    ensures TypeText(o, t).None? ==> r.None?
    ensures TypeText(o, t).Some? ==> r == Some(AnnotationsText(annotations) + TypeText(o, t).value)
    ensures annotations.None? ==> r == TypeText(o, t)
    decreases t, 2
  {
    var sb := AnnotationsText(annotations);
    ghost var body: string;
    match t {
      case ErrorType(_) =>
        sb := sb + Unknown;
        body := Unknown;
      case ClassLikeType(_, _, _, _, _) =>
        var rendered;
        if ShouldRenderAsPrettyFunctionType(t) {
          rendered := RenderFunctionType(o, sb, t);
        } else {
          rendered := RenderTypeConstructorAndArguments(o, sb, t);
        }
        if rendered.None? {
          return None;
        }
        body := rendered.value[|sb|..];
        sb := rendered.value;
      case TypeParameterType(name, _) =>
        sb := sb + name;
        body := name;
      case IntersectionType(ts, _) =>
        ghost var start := sb;
        sb := sb + "(";
        ghost var head := sb;
        var i := 0;
        while i < |ts|
          invariant 0 <= i <= |ts|
          invariant RenderedTypes(o, ts[..i]).Some?
          invariant sb == head + Join(RenderedTypes(o, ts[..i]).value, "&")
        {
          var rendered := RenderType(o, ts[i], None);
          RenderedTypesStep(o, ts, i, head, sb, "&", TypeText(o, ts[i]));
          if rendered.None? {
            RenderedTypesFailurePersists(o, ts, i + 1, |ts|);
            assert ts[..|ts|] == ts;
            return None;
          }
          if i > 0 {
            sb := sb + "&";
          }
          sb := sb + rendered.value;
          i := i + 1;
        }
        assert ts[..i] == ts;
        sb := sb + ")";
        body := "(" + Join(RenderedTypes(o, ts).value, "&") + ")";
        AppendThree(start, "(", Join(RenderedTypes(o, ts).value, "&"), ")");
      case FlexibleType(lower, upper, _) =>
        var l := RenderType(o, lower, None);
        if l.None? {
          return None;
        }
        var u := RenderType(o, upper, None);
        if u.None? {
          return None;
        }
        sb := sb + RenderFlexibleType(l.value, u.value);
        body := RenderFlexibleType(l.value, u.value);
      case OtherType(_) =>
        sb := sb + Unknown;
        body := Unknown;
    }
    assert BodyText(o, t) == Some(body);
    if t.isMarkedNullable {
      sb := sb + "?";
      AppendAssoc(AnnotationsText(annotations), body, "?");
    } else {
      AppendEmpty(body);
    }
    EmptyAppend(body + NullabilityMark(t));
    return Some(sb);
  }

  /**
   * `renderTypeConstructorAndArguments`: appends to `sb` exactly the text
   * `ClassifierText` specifies, walking the class chain with a running count
   * of consumed type arguments.
   */
  method RenderTypeConstructorAndArguments(o: TypeRendererOptions, sb: string, t: ConeType) returns (r: Option<string>)
    requires t.ClassLikeType?
    ensures ClassifierText(o, t).None? ==> r.None?
    ensures ClassifierText(o, t).Some? ==> r == Some(sb + ClassifierText(o, t).value)
  {
    if t.resolved.None? {
      return Some(sb + Unknown);
    }
    var classToRender := t.resolved.value;
    var out := sb;
    if !classToRender.isLocal && o.shortQualifiedNames {
      out := out + classToRender.packageName + ".";
    }
    var designation := classToRender.designation;
    var renderedTypeArgumentsCount := 0;
    var addPoint := false;
    ghost var head := out;
    for i := 0 to |designation|
      invariant renderedTypeArgumentsCount == ConsumedArguments(designation[..i])
      invariant addPoint == (RegularEntryCount(designation[..i]) > 0)
      invariant ChainText(o, t, i).Some? && out == head + ChainText(o, t, i).value
    {
      ChainCountersStep(designation, i);
      match designation[i] {
        case OtherEntry =>
        case RegularClassEntry(name, tps) =>
          ghost var before := out;
          if addPoint {
            out := out + ".";
          }
          addPoint := true;
          out := out + name;
          var typeParametersCount := OwnTypeParameterCount(tps);
          var arguments := ArgumentRangeText(o, t, renderedTypeArgumentsCount,
                                             renderedTypeArgumentsCount + typeParametersCount);
          ChainTextRegularStep(o, t, i, head, before, arguments);
          if arguments.None? {
            ChainTextFailurePersists(o, t, i + 1, |designation|);
            return None;
          }
          out := out + arguments.value;
          renderedTypeArgumentsCount := renderedTypeArgumentsCount + typeParametersCount;
      }
    }
    assert out == sb + ClassifierText(o, t).value;
    return Some(out);
  }

  /**
   * `renderFunctionType`: appends to `sb` exactly the text `FunctionTypeText`
   * specifies. The opening parenthesis of a nullable suspend function type is
   * inserted at the length the builder had on entry, which is its end.
   */
  method RenderFunctionType(o: TypeRendererOptions, sb: string, t: ConeType) returns (r: Option<string>)
    requires IsBuiltinFunctionalType(t)
    ensures FunctionTypeText(o, t).None? ==> r.None?
    ensures FunctionTypeText(o, t).Some? ==> r == Some(sb + FunctionTypeText(o, t).value)
    decreases t, 1
  {
    var out := sb;
    var lengthBefore := |out|;
    var fv := t.functional.value;
    var isSuspend := fv.isSuspend;
    var isNullable := t.isMarkedNullable;
    var receiverType := fv.receiver;
    // annotations of the function type are never rendered here, so only nullability asks for parentheses
    var needParenthesis := isNullable;
    if needParenthesis {
      if isSuspend {
        assert out[..lengthBefore] == sb && out[lengthBefore..] == "";
        out := out[..lengthBefore] + "(" + out[lengthBefore..];
        AppendEmpty(sb + "(");
      } else {
        out := out + "(";
      }
    } else {
      AppendEmpty(sb);
    }
    // `text` is what has been appended to `sb` so far
    ghost var text := OpeningParenthesis(t);
    if isSuspend {
      out := out + "suspend ";
    } else {
      AppendEmpty(text);
    }
    AppendAssoc(sb, text, SuspendModifier(t));
    text := text + SuspendModifier(t);
    ghost var beforeReceiver := out;
    if receiverType.Some? {
      var receiver := receiverType.value;
      var surroundReceiver := (ShouldRenderAsPrettyFunctionType(receiver) && !receiver.isMarkedNullable)
                              || IsSuspendFunctionType(receiver);
      if surroundReceiver {
        out := out + "(";
      }
      var rendered := RenderType(o, receiver, None);
      if rendered.None? {
        return None;
      }
      out := out + rendered.value;
      if surroundReceiver {
        out := out + ")";
      }
      out := out + ".";
      if surroundReceiver {
        AppendPieces(beforeReceiver, "(", rendered.value, ")", ".");
      } else {
        AppendAssoc(beforeReceiver, rendered.value, ".");
      }
    } else {
      AppendEmpty(text);
    }
    AppendAssoc(sb, text, ReceiverText(o, t).value);
    text := text + ReceiverText(o, t).value;
    out := out + "(";
    AppendAssoc(sb, text, "(");
    text := text + "(";
    var parameterTypes := fv.parameterTypesIncludingReceiver;
    var withParameters := AppendParameterTypes(o, out, t);
    if withParameters.None? {
      return None;
    }
    out := withParameters.value;
    ghost var parameters := Join(ParameterTexts(o, t, |parameterTypes|).value, ", ");
    AppendAssoc(sb, text, parameters);
    text := text + parameters;
    out := out + ") -> ";
    AppendAssoc(sb, text, ") -> ");
    text := text + ") -> ";
    var returnType := fv.returnType;
    ghost var returned: string;
    if returnType.Some? {
      var rendered := RenderType(o, returnType.value, None);
      if rendered.None? {
        return None;
      }
      out := out + rendered.value;
      returned := rendered.value;
    } else {
      out := out + Unknown;
      returned := Unknown;
    }
    AppendAssoc(sb, text, returned);
    text := text + returned;
    if needParenthesis {
      out := out + ")";
    } else {
      AppendEmpty(text);
    }
    AppendAssoc(sb, text, ClosingParenthesis(t));
    text := text + ClosingParenthesis(t);
    if isNullable {
      out := out + "?";
    } else {
      AppendEmpty(text);
    }
    AppendAssoc(sb, text, NullabilityMark(t));
    text := text + NullabilityMark(t);
    assert FunctionTypeText(o, t) == Some(text);
    return Some(out);
  }

  /**
   * The parameter loop of `renderFunctionType`: appends the rendered parameter
   * types, comma-separated, skipping absent ones and the receiver's slot.
   */
  method AppendParameterTypes(o: TypeRendererOptions, sb: string, t: ConeType) returns (r: Option<string>)
    requires IsBuiltinFunctionalType(t)
    ensures var texts := ParameterTexts(o, t, |t.functional.value.parameterTypesIncludingReceiver|);
      && (texts.None? ==> r.None?)
      && (texts.Some? ==> r == Some(sb + Join(texts.value, ", ")))
  {
    var out := sb;
    var parameterTypes := t.functional.value.parameterTypesIncludingReceiver;
    var receiverType := t.functional.value.receiver;
    var needComma := false;
    for index := 0 to |parameterTypes|
      invariant ParameterTexts(o, t, index).Some?
      invariant needComma == (|ParameterTexts(o, t, index).value| > 0)
      invariant out == sb + Join(ParameterTexts(o, t, index).value, ", ")
    {
      var typeProjection := parameterTypes[index];
      if typeProjection.None? {
        continue;
      }
      if index == 0 && receiverType.Some? {
        continue;
      }
      var rendered := RenderTypeProjection(o, TypeProjection(Invariant, typeProjection));
      ParameterTextsStep(o, t, index, sb, out, rendered);
      if rendered.None? {
        ParameterTextsFailurePersists(o, t, index + 1, |parameterTypes|);
        return None;
      }
      if needComma {
        out := out + ", ";
      } else {
        needComma := true;
      }
      out := out + rendered.value;
    }
    return Some(out);
  }

  // ---------------------------------------------------------------------
  // Properties
  // ---------------------------------------------------------------------

  /** One more parameter slot of a function type: skipped, failing, or appended after a comma. */
  lemma ParameterTextsStep(o: TypeRendererOptions, t: ConeType, index: nat, head: string, out: string,
                           rendered: Option<string>)
    requires IsBuiltinFunctionalType(t) && index < |t.functional.value.parameterTypesIncludingReceiver|
    requires var p := t.functional.value.parameterTypesIncludingReceiver[index];
             && p.Some? && !(index == 0 && t.functional.value.receiver.Some?)
             && rendered == RenderTypeProjection(o, TypeProjection(Invariant, p))
    requires ParameterTexts(o, t, index).Some? && out == head + Join(ParameterTexts(o, t, index).value, ", ")
    ensures rendered.None? ==> ParameterTexts(o, t, index + 1).None?
    ensures rendered.Some? ==>
      && ParameterTexts(o, t, index + 1) == Some(ParameterTexts(o, t, index).value + [rendered.value])
      && (|ParameterTexts(o, t, index).value| > 0 ==>
            out + ", " + rendered.value == head + Join(ParameterTexts(o, t, index + 1).value, ", "))
      && (|ParameterTexts(o, t, index).value| == 0 ==>
            out + rendered.value == head + Join(ParameterTexts(o, t, index + 1).value, ", "))
  {
    if rendered.Some? {
      var prev := ParameterTexts(o, t, index).value;
      JoinSnoc(prev, rendered.value, ", ");
      if |prev| > 0 {
        AppendThree(head, Join(prev, ", "), ", ", rendered.value);
      } else {
        AppendEmpty(head);
      }
    }
  }

  /** One more member of an intersection: failing, or appended after an `&`. */
  lemma RenderedTypesStep(o: TypeRendererOptions, ts: seq<ConeType>, i: nat, head: string, out: string,
                          separator: string, rendered: Option<string>)
    requires i < |ts| && rendered == TypeText(o, ts[i])
    requires RenderedTypes(o, ts[..i]).Some? && out == head + Join(RenderedTypes(o, ts[..i]).value, separator)
    ensures rendered.None? ==> RenderedTypes(o, ts[..i + 1]).None?
    ensures rendered.Some? ==>
      && RenderedTypes(o, ts[..i + 1]) == Some(RenderedTypes(o, ts[..i]).value + [rendered.value])
      && (i > 0 ==> out + separator + rendered.value == head + Join(RenderedTypes(o, ts[..i + 1]).value, separator))
      && (i == 0 ==> out + rendered.value == head + Join(RenderedTypes(o, ts[..i + 1]).value, separator))
  {
    assert ts[..i + 1][..i] == ts[..i];
    if rendered.Some? {
      var prev := RenderedTypes(o, ts[..i]).value;
      RenderedTypesLength(o, ts[..i]);
      JoinSnoc(prev, rendered.value, separator);
      if i > 0 {
        AppendThree(head, Join(prev, separator), separator, rendered.value);
      } else {
        AppendEmpty(head);
      }
    }
  }

  lemma {:induction false} RenderedTypesLength(o: TypeRendererOptions, ts: seq<ConeType>)
    requires RenderedTypes(o, ts).Some?
    ensures |RenderedTypes(o, ts).value| == |ts|
  {
    if |ts| > 0 {
      RenderedTypesLength(o, ts[..|ts| - 1]);
    }
  }

  lemma {:induction false} RenderedTypesFailurePersists(o: TypeRendererOptions, ts: seq<ConeType>, m: nat, n: nat)
    requires m <= n <= |ts|
    requires RenderedTypes(o, ts[..m]).None?
    ensures RenderedTypes(o, ts[..n]).None?
    decreases n
  {
    if m < n {
      RenderedTypesFailurePersists(o, ts, m, n - 1);
      assert ts[..n][..n - 1] == ts[..n - 1];
    }
  }

  /** One more designation entry moves the two counters of the class chain. */
  lemma ChainCountersStep(design: seq<DesignationEntry>, i: nat)
    requires i < |design|
    ensures ConsumedArguments(design[..i + 1]) == ConsumedArguments(design[..i]) +
              (if design[i].RegularClassEntry? then OwnTypeParameterCount(design[i].typeParameters) else 0)
    ensures RegularEntryCount(design[..i + 1]) == RegularEntryCount(design[..i]) + (if design[i].RegularClassEntry? then 1 else 0)
  {
    assert design[..i + 1][..i] == design[..i];
  }

  /**
   * A regular class adds its name, preceded by a dot unless it is the first,
   * and then its own arguments; appended to a builder holding `head` and the
   * chain so far, the builder holds `head` and the longer chain.
   */
  lemma ChainTextRegularStep(o: TypeRendererOptions, t: ConeType, i: nat, head: string, out: string,
                             arguments: Option<string>)
    requires t.ClassLikeType? && t.resolved.Some? && i < |t.resolved.value.designation|
    requires t.resolved.value.designation[i].RegularClassEntry?
    requires ChainText(o, t, i).Some? && out == head + ChainText(o, t, i).value
    requires var design := t.resolved.value.designation;
             var from := ConsumedArguments(design[..i]);
             arguments == ArgumentRangeText(o, t, from, from + OwnTypeParameterCount(design[i].typeParameters))
    ensures arguments.None? ==> ChainText(o, t, i + 1).None?
    ensures arguments.Some? ==>
      var design := t.resolved.value.designation;
      && ChainText(o, t, i + 1).Some?
      && (RegularEntryCount(design[..i]) > 0 ==>
            out + "." + design[i].name + arguments.value == head + ChainText(o, t, i + 1).value)
      && (RegularEntryCount(design[..i]) == 0 ==>
            out + design[i].name + arguments.value == head + ChainText(o, t, i + 1).value)
  {
    var design := t.resolved.value.designation;
    assert design[..i + 1][..i] == design[..i];
    if arguments.Some? {
      var dot := if RegularEntryCount(design[..i]) > 0 then "." else "";
      AppendPieces(head, ChainText(o, t, i).value, dot, design[i].name, arguments.value);
      assert out + dot == out + "." || out + dot == out;
    }
  }

  lemma {:induction false} ChainTextFailurePersists(o: TypeRendererOptions, t: ConeType, m: nat, n: nat)
    requires t.ClassLikeType? && t.resolved.Some? && m <= n <= |t.resolved.value.designation|
    requires ChainText(o, t, m).None?
    ensures ChainText(o, t, n).None?
    decreases n
  {
    if m < n {
      ChainTextFailurePersists(o, t, m, n - 1);
    }
  }

  lemma {:induction false} ParameterTextsFailurePersists(o: TypeRendererOptions, t: ConeType, m: nat, n: nat)
    requires IsBuiltinFunctionalType(t) && m <= n <= |t.functional.value.parameterTypesIncludingReceiver|
    requires ParameterTexts(o, t, m).None?
    ensures ParameterTexts(o, t, n).None?
    decreases n
  {
    if m < n {
      ParameterTextsFailurePersists(o, t, m, n - 1);
    }
  }
}
