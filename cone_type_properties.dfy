/**
 * What the cone type renderer promises, stated over the specification
 * functions of `ConeTypeRenderer`: the shape of each kind of type's text, the
 * flexible-type folds, the way the class chain consumes type arguments, and
 * the parameter list of the function-type sugar.
 */
module ConeTypeProperties {
  import opened Wrappers
  import opened Text
  import opened ConeTypes
  import opened ConeTypeRenderer

  // ---------------------------------------------------------------------
  // renderType, by kind of type
  // ---------------------------------------------------------------------

  /** An error type renders as `???`, and so does any type kind the renderer does not know. */
  lemma UnknownKindsRenderAsUnknown(o: TypeRendererOptions, t: ConeType)
    requires t.ErrorType? || t.OtherType?
    ensures TypeText(o, t) == Some(Unknown + NullabilityMark(t))
  {
  }

  /** A type parameter renders as its name. */
  lemma TypeParameterRendersAsName(o: TypeRendererOptions, name: string, nullable: bool)
    ensures TypeText(o, TypeParameterType(name, nullable)) == Some(name + (if nullable then "?" else ""))
  {
  }

  /** A class symbol that does not resolve to a regular class renders as `???` rather than failing. */
  lemma UnresolvedClassRendersAsUnknown(o: TypeRendererOptions, t: ConeType)
    requires t.ClassLikeType? && t.resolved.None? && !ShouldRenderAsPrettyFunctionType(t)
    ensures TypeText(o, t) == Some(Unknown + NullabilityMark(t))
  {
    assert BodyText(o, t) == Some(Unknown);
  }

  /** The members of an intersection render in order; the intersection fails exactly when one of them does. */
  lemma {:induction false} RenderedTypesPointwise(o: TypeRendererOptions, ts: seq<ConeType>)
    ensures RenderedTypes(o, ts).Some? <==> forall i :: 0 <= i < |ts| ==> TypeText(o, ts[i]).Some?
    ensures RenderedTypes(o, ts).Some? ==>
      |RenderedTypes(o, ts).value| == |ts| &&
      forall i :: 0 <= i < |ts| ==> RenderedTypes(o, ts).value[i] == TypeText(o, ts[i]).value
  {
    if |ts| > 0 {
      var init := ts[..|ts| - 1];
      RenderedTypesPointwise(o, init);
      assert forall i :: 0 <= i < |init| ==> init[i] == ts[i];
    }
  }

  /** `(A&B&...)`: the members' texts joined by `&` inside parentheses, then the mark. */
  lemma IntersectionRendering(o: TypeRendererOptions, ts: seq<ConeType>, nullable: bool)
    requires forall i :: 0 <= i < |ts| ==> TypeText(o, ts[i]).Some?
    ensures var parts := seq(|ts|, i requires 0 <= i < |ts| => TypeText(o, ts[i]).value);
      TypeText(o, IntersectionType(ts, nullable)) == Some("(" + Join(parts, "&") + ")" + (if nullable then "?" else ""))
  {
    RenderedTypesPointwise(o, ts);
    var parts := seq(|ts|, i requires 0 <= i < |ts| => TypeText(o, ts[i]).value);
    assert RenderedTypes(o, ts).value == parts;
  }

  // ---------------------------------------------------------------------
  // The nullability mark
  // ---------------------------------------------------------------------

  /** Every successful rendering of a nullable type ends with `?`. */
  lemma NullableTextEndsWithMark(o: TypeRendererOptions, t: ConeType)
    requires t.isMarkedNullable && TypeText(o, t).Some?
    ensures EndsWith(TypeText(o, t).value, "?")
  {
    var body :| TypeText(o, t) == Some(body + "?");
    assert (body + "?")[|body + "?"| - 1..] == "?";
  }

  /** The argument texts of a class-like type do not depend on its nullability. */
  lemma {:induction false} ArgumentTextsIgnoreNullability(o: TypeRendererOptions, t: ConeType, nullable: bool,
                                                          lo: nat, hi: nat)
    requires t.ClassLikeType? && hi <= |t.arguments|
    ensures ArgumentTexts(o, WithNullability(t, nullable), lo, hi) == ArgumentTexts(o, t, lo, hi)
    decreases hi
  {
    if lo < hi {
      ArgumentTextsIgnoreNullability(o, t, nullable, lo, hi - 1);
    }
  }

  /** The class chain of a class-like type does not depend on its nullability. */
  lemma {:induction false} ChainTextIgnoresNullability(o: TypeRendererOptions, t: ConeType, nullable: bool, n: nat)
    requires t.ClassLikeType? && t.resolved.Some? && n <= |t.resolved.value.designation|
    ensures ChainText(o, WithNullability(t, nullable), n) == ChainText(o, t, n)
    decreases n
  {
    if n > 0 {
      ChainTextIgnoresNullability(o, t, nullable, n - 1);
      var design := t.resolved.value.designation;
      if design[n - 1].RegularClassEntry? {
        var from := ConsumedArguments(design[..n - 1]);
        var until := from + OwnTypeParameterCount(design[n - 1].typeParameters);
        if from < until <= |t.arguments| {
          ArgumentTextsIgnoreNullability(o, t, nullable, from, until);
        }
      }
    }
  }

  /** The parameter texts of a function type do not depend on its nullability. */
  lemma {:induction false} ParameterTextsIgnoreNullability(o: TypeRendererOptions, t: ConeType, nullable: bool, n: nat)
    requires IsBuiltinFunctionalType(t) && n <= |t.functional.value.parameterTypesIncludingReceiver|
    ensures ParameterTexts(o, WithNullability(t, nullable), n) == ParameterTexts(o, t, n)
    decreases n
  {
    if n > 0 {
      ParameterTextsIgnoreNullability(o, t, nullable, n - 1);
    }
  }

  /** Apart from function types, what a type renders to before its mark does not depend on its nullability. */
  lemma BodyTextIgnoresNullability(o: TypeRendererOptions, t: ConeType, nullable: bool)
    requires !ShouldRenderAsPrettyFunctionType(t)
    ensures BodyText(o, WithNullability(t, nullable)) == BodyText(o, t)
  {
    if t.ClassLikeType? && t.resolved.Some? {
      ChainTextIgnoresNullability(o, t, nullable, |t.resolved.value.designation|);
    }
  }

  /**
   * Apart from function types, a nullable type renders as the same type
   * without the mark, followed by one `?`.
   */
  lemma NullableMarkAppended(o: TypeRendererOptions, t: ConeType)
    requires !ShouldRenderAsPrettyFunctionType(t)
    ensures var marked := TypeText(o, WithNullability(t, true));
      var plain := TypeText(o, WithNullability(t, false));
      && (marked.Some? <==> plain.Some?)
      && (plain.Some? ==> marked.value == plain.value + "?")
  {
    BodyTextIgnoresNullability(o, t, true);
    BodyTextIgnoresNullability(o, t, false);
    if BodyText(o, t).Some? {
      AppendEmpty(BodyText(o, t).value);
    }
  }

  /** The function-type sugar without its parentheses and mark: `suspend R.(P1, P2) -> T`. */
  function SignatureText(o: TypeRendererOptions, t: ConeType): Option<string>
    requires IsBuiltinFunctionalType(t)
  {
    var fv := t.functional.value;
    var receiver :- ReceiverText(o, t);
    var parameters :- ParameterTexts(o, t, |fv.parameterTypesIncludingReceiver|);
    var returned :- if fv.returnType.Some? then TypeText(o, fv.returnType.value) else Some(Unknown);
    Some(SuspendModifier(t) + receiver + "(" + Join(parameters, ", ") + ") -> " + returned)
  }

  /** The sugar of a function type is its signature, inside parentheses and followed by `?` when nullable. */
  lemma FunctionTypeTextWrapsSignature(o: TypeRendererOptions, t: ConeType)
    requires IsBuiltinFunctionalType(t)
    ensures SignatureText(o, t).None? ==> FunctionTypeText(o, t).None?
    ensures SignatureText(o, t).Some? ==>
      FunctionTypeText(o, t) == Some(OpeningParenthesis(t) + SignatureText(o, t).value + ClosingParenthesis(t)
                                     + NullabilityMark(t))
  {
    if SignatureText(o, t).Some? {
      var fv := t.functional.value;
      var receiver := ReceiverText(o, t).value;
      var parameters := Join(ParameterTexts(o, t, |fv.parameterTypesIncludingReceiver|).value, ", ");
      var returned := if fv.returnType.Some? then TypeText(o, fv.returnType.value).value else Unknown;
      Regroup(OpeningParenthesis(t), SuspendModifier(t), receiver, "(", parameters, ") -> ", returned);
    }
  }

  /** The signature of a function type does not depend on its nullability. */
  lemma SignatureTextIgnoresNullability(o: TypeRendererOptions, t: ConeType, nullable: bool)
    requires IsBuiltinFunctionalType(t)
    ensures SignatureText(o, WithNullability(t, nullable)) == SignatureText(o, t)
  {
    ParameterTextsIgnoreNullability(o, t, nullable, |t.functional.value.parameterTypesIncludingReceiver|);
  }

  /**
   * A nullable function type is wrapped in parentheses and then marked
   * twice: once by the function-type sugar and once more by `renderType`.
   */
  lemma NullableFunctionTypeMarkedTwice(o: TypeRendererOptions, t: ConeType)
    requires ShouldRenderAsPrettyFunctionType(t)
    ensures var marked := TypeText(o, WithNullability(t, true));
      var plain := TypeText(o, WithNullability(t, false));
      && (marked.Some? <==> plain.Some?)
      && (plain.Some? ==> marked.value == "(" + plain.value + ")??")
  {
    var marked := WithNullability(t, true);
    var plain := WithNullability(t, false);
    assert ShouldRenderAsPrettyFunctionType(marked) && ShouldRenderAsPrettyFunctionType(plain);
    assert BodyText(o, marked) == FunctionTypeText(o, marked);
    assert BodyText(o, plain) == FunctionTypeText(o, plain);
    SignatureTextIgnoresNullability(o, t, true);
    SignatureTextIgnoresNullability(o, t, false);
    FunctionTypeTextWrapsSignature(o, marked);
    FunctionTypeTextWrapsSignature(o, plain);
    if SignatureText(o, t).Some? {
      var signature := SignatureText(o, t).value;
      EmptyAppend(signature);
      AppendEmpty(signature);
      assert TypeText(o, plain).value == signature;
      assert TypeText(o, marked).value == "(" + signature + ")" + "?" + "?";
    }
  }

  // ---------------------------------------------------------------------
  // Type arguments and projections
  // ---------------------------------------------------------------------

  /** `*`, `in T`, `out T` or `T`, where a projection without a type renders its type as `???`. */
  lemma ProjectionRendering(o: TypeRendererOptions, p: TypeProjection)
    ensures var inner := if p.projected.Some? then TypeText(o, p.projected.value) else Some(Unknown);
      && (RenderTypeProjection(o, p).Some? <==> inner.Some?)
      && (inner.Some? ==>
            RenderTypeProjection(o, p).value ==
              (match p.kind
               case Star => "*"
               case In => "in " + inner.value
               case Out => "out " + inner.value
               case Invariant => inner.value))
  {
  }

  /** The projections of a list render in order; the list fails exactly when one of them does. */
  lemma {:induction false} ProjectionTextsPointwise(o: TypeRendererOptions, ps: seq<TypeProjection>)
    ensures ProjectionTexts(o, ps).Some? <==> forall i :: 0 <= i < |ps| ==> RenderTypeProjection(o, ps[i]).Some?
    ensures ProjectionTexts(o, ps).Some? ==>
      |ProjectionTexts(o, ps).value| == |ps| &&
      forall i :: 0 <= i < |ps| ==> ProjectionTexts(o, ps).value[i] == RenderTypeProjection(o, ps[i]).value
  {
    if |ps| > 0 {
      var init := ps[..|ps| - 1];
      ProjectionTextsPointwise(o, init);
      assert forall i :: 0 <= i < |init| ==> init[i] == ps[i];
    }
  }

  /** `renderTypeArguments`: nothing for no arguments, otherwise `<` + the projections joined by `, ` + `>`. */
  lemma TypeArgumentsRendering(o: TypeRendererOptions, arguments: seq<TypeProjection>)
    requires forall i :: 0 <= i < |arguments| ==> RenderTypeProjection(o, arguments[i]).Some?
    ensures var parts := seq(|arguments|, i requires 0 <= i < |arguments| => RenderTypeProjection(o, arguments[i]).value);
      RenderTypeArguments(o, arguments) == Some(if |arguments| == 0 then "" else "<" + Join(parts, ", ") + ">")
  {
    ProjectionTextsPointwise(o, arguments);
    var parts := seq(|arguments|, i requires 0 <= i < |arguments| => RenderTypeProjection(o, arguments[i]).value);
    assert |arguments| > 0 ==> ProjectionTexts(o, arguments).value == parts;
  }

  lemma {:induction false} ArgumentTextsArePrefixTexts(o: TypeRendererOptions, t: ConeType, n: nat)
    requires t.ClassLikeType? && n <= |t.arguments|
    ensures ArgumentTexts(o, t, 0, n) == ProjectionTexts(o, t.arguments[..n])
  {
    if n > 0 {
      ArgumentTextsArePrefixTexts(o, t, n - 1);
      assert t.arguments[..n][..n - 1] == t.arguments[..n - 1];
    }
  }

  /**
   * The public `renderTypeArguments` of all the arguments of a type renders
   * them exactly as one level of the class chain renders its slice.
   */
  lemma TypeArgumentsAsOneSlice(o: TypeRendererOptions, t: ConeType)
    requires t.ClassLikeType?
    ensures RenderTypeArguments(o, t.arguments) == ArgumentRangeText(o, t, 0, |t.arguments|)
  {
    ArgumentTextsArePrefixTexts(o, t, |t.arguments|);
    assert t.arguments[..|t.arguments|] == t.arguments;
  }

  // ---------------------------------------------------------------------
  // The class chain
  // ---------------------------------------------------------------------

  /** A slice of arguments that all render renders. */
  lemma {:induction false} ArgumentTextsSucceed(o: TypeRendererOptions, t: ConeType, from: nat, until: nat)
    requires t.ClassLikeType? && until <= |t.arguments|
    requires forall i :: 0 <= i < |t.arguments| ==> RenderTypeProjection(o, t.arguments[i]).Some?
    ensures ArgumentTexts(o, t, from, until).Some?
    decreases until
  {
    if from < until {
      ArgumentTextsSucceed(o, t, from, until - 1);
    }
  }

  /**
   * When the chain's own type parameters outnumber the arguments, slicing
   * the arguments throws: the chain has no text.
   */
  lemma {:induction false} ChainFailsWhenArgumentsRunOut(o: TypeRendererOptions, t: ConeType, n: nat)
    requires t.ClassLikeType? && t.resolved.Some? && n <= |t.resolved.value.designation|
    requires ConsumedArguments(t.resolved.value.designation[..n]) > |t.arguments|
    ensures ChainText(o, t, n).None?
    decreases n
  {
    var design := t.resolved.value.designation;
    assert n > 0;
    ChainCountersStep(design, n - 1);
    if ConsumedArguments(design[..n - 1]) > |t.arguments| {
      ChainFailsWhenArgumentsRunOut(o, t, n - 1);
    }
  }

  /** When the arguments suffice and each renders, the chain has a text. */
  lemma {:induction false} ChainSucceedsWhenArgumentsSuffice(o: TypeRendererOptions, t: ConeType, n: nat)
    requires t.ClassLikeType? && t.resolved.Some? && n <= |t.resolved.value.designation|
    requires ConsumedArguments(t.resolved.value.designation[..n]) <= |t.arguments|
    requires forall i :: 0 <= i < |t.arguments| ==> RenderTypeProjection(o, t.arguments[i]).Some?
    ensures ChainText(o, t, n).Some?
    decreases n
  {
    if n > 0 {
      var design := t.resolved.value.designation;
      ChainCountersStep(design, n - 1);
      ChainSucceedsWhenArgumentsSuffice(o, t, n - 1);
      if design[n - 1].RegularClassEntry? {
        var from := ConsumedArguments(design[..n - 1]);
        ArgumentTextsSucceed(o, t, from, from + OwnTypeParameterCount(design[n - 1].typeParameters));
      }
    }
  }

  /**
   * A resolved class renders exactly when its chain's own type parameters do
   * not outnumber the arguments (given that every argument renders).
   */
  lemma ClassifierRendersIffArgumentsSuffice(o: TypeRendererOptions, t: ConeType)
    requires t.ClassLikeType? && t.resolved.Some?
    requires forall i :: 0 <= i < |t.arguments| ==> RenderTypeProjection(o, t.arguments[i]).Some?
    ensures ClassifierText(o, t).Some? <==> ConsumedArguments(t.resolved.value.designation) <= |t.arguments|
  {
    var design := t.resolved.value.designation;
    assert design[..|design|] == design;
    if ConsumedArguments(design) <= |t.arguments| {
      ChainSucceedsWhenArgumentsSuffice(o, t, |design|);
    } else {
      ChainFailsWhenArgumentsRunOut(o, t, |design|);
    }
  }

  /** The names of the regular classes of a designation, outermost first. */
  function RegularNames(design: seq<DesignationEntry>): (r: seq<string>)
  {
    if |design| == 0 then []
    else
      RegularNames(design[..|design| - 1]) +
      match design[|design| - 1]
      case RegularClassEntry(name, _) => [name]
      case OtherEntry => []
  }

  lemma {:induction false} RegularNamesCount(design: seq<DesignationEntry>)
    ensures |RegularNames(design)| == RegularEntryCount(design)
  {
    if |design| > 0 {
      RegularNamesCount(design[..|design| - 1]);
    }
  }

  /**
   * Without type parameters of their own, the chain is the names of its
   * regular classes joined by `.`, with no leading dot.
   */
  lemma {:induction false} ChainOfNames(o: TypeRendererOptions, t: ConeType, n: nat)
    requires t.ClassLikeType? && t.resolved.Some? && n <= |t.resolved.value.designation|
    requires forall i :: 0 <= i < n && t.resolved.value.designation[i].RegularClassEntry? ==>
               OwnTypeParameterCount(t.resolved.value.designation[i].typeParameters) == 0
    ensures ChainText(o, t, n) == Some(Join(RegularNames(t.resolved.value.designation[..n]), "."))
    decreases n
  {
    if n > 0 {
      var design := t.resolved.value.designation;
      ChainOfNames(o, t, n - 1);
      assert design[..n][..n - 1] == design[..n - 1];
      match design[n - 1]
      case OtherEntry =>
        assert RegularNames(design[..n - 1]) + [] == RegularNames(design[..n - 1]);
      case RegularClassEntry(name, tps) =>
        var prev := RegularNames(design[..n - 1]);
        RegularNamesCount(design[..n - 1]);
        JoinSnoc(prev, name, ".");
        if |prev| > 0 {
          AppendEmpty(Join(prev, ".") + "." + name);
        } else {
          assert ChainText(o, t, n - 1).value == "";
          assert "" + "" + name + "" == name;
        }
    }
  }

  // ---------------------------------------------------------------------
  // Function-type sugar
  // ---------------------------------------------------------------------

  /** A class-like type with a star argument never takes the function-type sugar. */
  lemma StarArgumentDisablesSugar(o: TypeRendererOptions, t: ConeType, i: nat)
    requires t.ClassLikeType? && i < |t.arguments| && t.arguments[i].kind == Star
    ensures BodyText(o, t) == ClassifierText(o, t)
  {
  }

  /** The parameter types the sugar lists among the first `n` slots: present ones, receiver slot skipped. */
  function ListedParameterTypes(fv: FunctionalView, n: nat): (r: seq<ConeType>)
    requires n <= |fv.parameterTypesIncludingReceiver|
  {
    if n == 0 then []
    else
      var p := fv.parameterTypesIncludingReceiver[n - 1];
      ListedParameterTypes(fv, n - 1) +
      (if p.None? || (n - 1 == 0 && fv.receiver.Some?) then [] else [p.value])
  }

  /** The parameter list of the sugar renders exactly the listed parameter types, in order. */
  lemma {:induction false} ParameterTextsAreListedTypes(o: TypeRendererOptions, t: ConeType, n: nat)
    requires IsBuiltinFunctionalType(t) && n <= |t.functional.value.parameterTypesIncludingReceiver|
    ensures ParameterTexts(o, t, n) == RenderedTypes(o, ListedParameterTypes(t.functional.value, n))
    decreases n
  {
    if n > 0 {
      var fv := t.functional.value;
      ParameterTextsAreListedTypes(o, t, n - 1);
      var prev := ListedParameterTypes(fv, n - 1);
      var p := fv.parameterTypesIncludingReceiver[n - 1];
      if !(p.None? || (n - 1 == 0 && fv.receiver.Some?)) {
        assert (prev + [p.value])[..|prev|] == prev;
      } else {
        assert prev + [] == prev;
      }
    }
  }

  /** With a receiver, the first slot (the receiver's own) is never listed as a parameter. */
  lemma ReceiverSlotNotListed(fv: FunctionalView)
    requires fv.receiver.Some? && |fv.parameterTypesIncludingReceiver| > 0
    ensures ListedParameterTypes(fv, 1) == []
  {
  }

  // ---------------------------------------------------------------------
  // Flexible types
  // ---------------------------------------------------------------------

  /**
   * Renderings that differ only in nullability fold to the lower one with a
   * `!`, parenthesised when the upper one starts with `(`.
   */
  lemma FlexibleNullabilityFold(l: string, u: string)
    requires DiffersOnlyInNullability(l, u)
    ensures RenderFlexibleType(l, u) == if StartsWith(u, "(") then "(" + l + ")!" else l + "!"
  {
  }

  /**
   * "Only nullability" strips every `?` of the upper rendering, not just a
   * trailing one: a lower bound that lacks the marks of nested arguments
   * still folds.
   */
  lemma NullabilityTestIgnoresNestedMarks(u: string)
    ensures var l := RemoveAll(u, '?');
      RenderFlexibleType(l, u) == if StartsWith(u, "(") then "(" + l + ")!" else l + "!"
  {
  }

  /** Equal renderings without any `?` fold to the rendering with a `!`. */
  lemma FlexibleEqualBounds(l: string)
    requires '?' !in l
    ensures RenderFlexibleType(l, l) == if StartsWith(l, "(") then "(" + l + ")!" else l + "!"
  {
    assert DiffersOnlyInNullability(l, l);
  }

  /** A flexible type between `T` and `T?` renders as `T!`. */
  lemma FlexibleNullableUpperBound(l: string)
    requires !StartsWith(l, "(")
    ensures RenderFlexibleType(l, l + "?") == l + "!"
  {
    assert (l + "?")[|l + "?"| - 1..] == "?";
    assert DiffersOnlyInNullability(l, l + "?");
    if |l| > 0 {
      assert l[..1] == [l[0]] && (l + "?")[..1] == [l[0]];
    } else {
      assert (l + "?")[..1] == "?";
    }
  }

  /**
   * The range form `(lower..upper)` is produced exactly when no fold applies:
   * every fold is shorter than it.
   */
  lemma FlexibleRangeIffNoFold(l: string, u: string)
    ensures RenderFlexibleType(l, u) == "(" + l + ".." + u + ")" <==>
      && !DiffersOnlyInNullability(l, u)
      && SimpleCollectionFold(l, u).None?
      && MutableEntryFold(l, u).None?
      && ArrayFold(l, u).None?
  {
    var range := "(" + l + ".." + u + ")";
    assert |range| == |l| + |u| + 4;
    var r := RenderFlexibleType(l, u);
    if DiffersOnlyInNullability(l, u) {
      assert |r| <= |l| + 3;
    } else if SimpleCollectionFold(l, u).Some? {
      assert |r| <= |l| + 3;
    } else if MutableEntryFold(l, u).Some? {
      assert |r| <= |l| + 5;
      assert |u| >= |KotlinCollectionsPrefix + "Map.Entry"| == 28;
    } else if ArrayFold(l, u).Some? {
      assert |r| <= |l| + 7;
      assert |u| >= |KotlinPrefix + "Array<out "| == 17;
    }
  }

  /** A lower rendering longer than the upper one never differs from it only in nullability. */
  lemma LongerLowerIsNotNullabilityOnly(l: string, u: string)
    requires |l| > |u|
    ensures !DiffersOnlyInNullability(l, u)
  {
  }

  lemma PrefixedParts(prefix: string, rest: string)
    ensures StartsWith(prefix + rest, prefix) && (prefix + rest)[|prefix|..] == rest
  {
    assert (prefix + rest)[..|prefix|] == prefix;
  }

  /** Two renderings with the same remainder after their prefixes fold to the folded prefix and that remainder. */
  lemma FoldsEqualRemainders(lowerPrefix: string, upperPrefix: string, foldedPrefix: string, rest: string)
    ensures ReplacePrefixes(lowerPrefix + rest, lowerPrefix, upperPrefix + rest, upperPrefix, foldedPrefix)
            == Some(foldedPrefix + rest)
  {
    PrefixedParts(lowerPrefix, rest);
    PrefixedParts(upperPrefix, rest);
  }

  /** A remainder and the same remainder with a `?` fold with a `!`. */
  lemma FoldsNullableRemainder(lowerPrefix: string, upperPrefix: string, foldedPrefix: string, rest: string)
    ensures ReplacePrefixes(lowerPrefix + rest, lowerPrefix, upperPrefix + rest + "?", upperPrefix, foldedPrefix)
            == Some(foldedPrefix + rest + "!")
  {
    PrefixedParts(lowerPrefix, rest);
    PrefixedParts(upperPrefix, rest + "?");
    assert upperPrefix + rest + "?" == upperPrefix + (rest + "?");
    assert EndsWith(rest + "?", "?") by {
      assert (rest + "?")[|rest + "?"| - 1..] == "?";
    }
    assert DiffersOnlyInNullability(rest, rest + "?");
    assert rest != rest + "?";
  }

  /** No fold when the lower remainder is longer than the upper one. */
  lemma NoFoldForLongerLowerRemainder(l: string, lowerPrefix: string, u: string, upperPrefix: string,
                                     foldedPrefix: string)
    requires |l| - |lowerPrefix| > |u| - |upperPrefix|
    ensures ReplacePrefixes(l, lowerPrefix, u, upperPrefix, foldedPrefix).None?
  {
    if StartsWith(l, lowerPrefix) && StartsWith(u, upperPrefix) {
      LongerLowerIsNotNullabilityOnly(l[|lowerPrefix|..], u[|upperPrefix|..]);
    }
  }

  /** `java.util.List<Foo>` and friends: `kotlin.collections.(Mutable)List<...>`. */
  lemma MutableCollectionFolds(rest: string)
    ensures RenderFlexibleType(KotlinCollectionsPrefix + MutablePrefix + rest, KotlinCollectionsPrefix + rest)
            == KotlinCollectionsPrefix + "(" + MutablePrefix + ")" + rest
  {
    var l := KotlinCollectionsPrefix + MutablePrefix + rest;
    LongerLowerIsNotNullabilityOnly(l, KotlinCollectionsPrefix + rest);
    assert l == (KotlinCollectionsPrefix + MutablePrefix) + rest;
    FoldsEqualRemainders(KotlinCollectionsPrefix + MutablePrefix, KotlinCollectionsPrefix,
                         KotlinCollectionsPrefix + "(" + MutablePrefix + ")", rest);
  }

  /** The same with a nullable upper bound: `kotlin.collections.(Mutable)List<...>!`. */
  lemma MutableCollectionFoldsNullable(rest: string)
    ensures RenderFlexibleType(KotlinCollectionsPrefix + MutablePrefix + rest, KotlinCollectionsPrefix + rest + "?")
            == KotlinCollectionsPrefix + "(" + MutablePrefix + ")" + rest + "!"
  {
    var l := KotlinCollectionsPrefix + MutablePrefix + rest;
    LongerLowerIsNotNullabilityOnly(l, KotlinCollectionsPrefix + rest + "?");
    assert l == (KotlinCollectionsPrefix + MutablePrefix) + rest;
    FoldsNullableRemainder(KotlinCollectionsPrefix + MutablePrefix, KotlinCollectionsPrefix,
                           KotlinCollectionsPrefix + "(" + MutablePrefix + ")", rest);
  }

  /**
   * `java.util.Map.Entry<K, V>`: the collection fold is tried first and does
   * not apply, so the entry fold gives `kotlin.collections.(Mutable)Map.(Mutable)Entry<...>`.
   */
  lemma MutableEntryFolds(rest: string)
    ensures var lowerPrefix := KotlinCollectionsPrefix + "MutableMap.MutableEntry";
      var upperPrefix := KotlinCollectionsPrefix + "Map.Entry";
      RenderFlexibleType(lowerPrefix + rest, upperPrefix + rest)
        == KotlinCollectionsPrefix + "(Mutable)Map.(Mutable)Entry" + rest
  {
    var lowerPrefix := KotlinCollectionsPrefix + "MutableMap.MutableEntry";
    var upperPrefix := KotlinCollectionsPrefix + "Map.Entry";
    var l := lowerPrefix + rest;
    var u := upperPrefix + rest;
    LongerLowerIsNotNullabilityOnly(l, u);
    NoFoldForLongerLowerRemainder(l, KotlinCollectionsPrefix + MutablePrefix, u, KotlinCollectionsPrefix,
                                  KotlinCollectionsPrefix + "(" + MutablePrefix + ")");
    FoldsEqualRemainders(lowerPrefix, upperPrefix, KotlinCollectionsPrefix + "(Mutable)Map.(Mutable)Entry", rest);
  }

  /**
   * `Foo[]`: the bounds never differ only in nullability, neither collection
   * fold applies to `kotlin.Array<`, so the array fold gives
   * `kotlin.Array<(out) Foo>`, also for a nullable element type.
   */
  lemma ArrayFolds(rest: string)
    ensures RenderFlexibleType(KotlinPrefix + "Array<" + rest, KotlinPrefix + "Array<out " + rest)
            == KotlinPrefix + "Array<(out) " + rest
  {
    var lowerPrefix := KotlinPrefix + "Array<";
    var upperPrefix := KotlinPrefix + "Array<out ";
    var l := lowerPrefix + rest;
    var u := upperPrefix + rest;
    assert KotlinPrefix + "Array<out " + rest == lowerPrefix + "out " + rest;
    OutInsertedNotNullabilityOnly(lowerPrefix, rest);
    assert l[7] == 'A' && (KotlinCollectionsPrefix + MutablePrefix)[7] == 'c';
    assert (KotlinCollectionsPrefix + "MutableMap.MutableEntry")[7] == 'c';
    FoldsEqualRemainders(lowerPrefix, upperPrefix, KotlinPrefix + "Array<(out) ", rest);
  }

  /** `P X` and `P out X` never differ only in nullability, whatever `X` holds, when `P` has no `?` and no leading `(`. */
  lemma OutInsertedNotNullabilityOnly(p: string, rest: string)
    requires |p| > 0 && p[0] != '(' && '?' !in p
    ensures !DiffersOnlyInNullability(p + rest, p + "out " + rest)
  {
    var l := p + rest;
    var u := p + "out " + rest;
    assert '?' !in p + "out ";
    RemoveAllAppend(p + "out ", rest, '?');
    AppendAssoc(p, "out ", RemoveAll(rest, '?'));
    NotOutThenStripped(rest);
    PrefixCancels(p, rest, "out " + RemoveAll(rest, '?'));
    assert |l + "?"| < |u|;
    assert ("(" + l + ")?")[0] != u[0];
  }

  /** Removing a character from a concatenation removes it from each part. */
  lemma {:induction false} RemoveAllAppend(a: string, b: string, c: char)
    ensures RemoveAll(a + b, c) == RemoveAll(a, c) + RemoveAll(b, c)
    decreases |a|
  {
    if |a| == 0 {
      assert a + b == b;
    } else {
      assert (a + b)[1..] == a[1..] + b;
      RemoveAllAppend(a[1..], b, c);
      AppendAssoc(if a[0] == c then "" else [a[0]], RemoveAll(a[1..], c), RemoveAll(b, c));
    }
  }

  /** No text equals `out ` followed by itself with its `?` removed. */
  lemma {:induction false} NotOutThenStripped(z: string)
    ensures z != "out " + RemoveAll(z, '?')
    decreases |z|
  {
    var stripped := "out " + RemoveAll(z, '?');
    assert stripped[..4] == "out ";
    if |z| >= 4 && z[..4] == "out " {
      var tail := z[4..];
      assert z == "out " + tail;
      RemoveAllAppend("out ", tail, '?');
      AppendAssoc("out ", "out ", RemoveAll(tail, '?'));
      NotOutThenStripped(tail);
      PrefixCancels("out ", tail, "out " + RemoveAll(tail, '?'));
    }
  }

  /** Equal texts with a common prefix have equal remainders. */
  lemma PrefixCancels(p: string, a: string, b: string)
    ensures p + a == p + b ==> a == b
  {
    assert (p + a)[|p|..] == a;
    assert (p + b)[|p|..] == b;
  }

  /** Appending six pieces one at a time appends their concatenation. */
  lemma Regroup(head: string, a: string, b: string, c: string, d: string, e: string, f: string)
    ensures head + a + b + c + d + e + f == head + (a + b + c + d + e + f)
  {
    AppendAssoc(head, a, b);
    AppendAssoc(head, a + b, c);
    AppendAssoc(head, a + b + c, d);
    AppendAssoc(head, a + b + c + d, e);
    AppendAssoc(head, a + b + c + d + e, f);
  }
}
