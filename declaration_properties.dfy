/**
 * What the declaration renderer promises, stated over the texts of
 * `DeclarationText`: how lists are rendered and separated, when a block is
 * taken back, which modifiers are left out, when rendering fails, and what
 * `render` trims.
 */
module DeclarationProperties {
  import opened Wrappers
  import opened Text
  import opened FirDeclarations
  import opened DeclarationText

  // ---------------------------------------------------------------------
  // Lists
  // ---------------------------------------------------------------------

  /** A list renders exactly when every element does, and then it lists their texts in order. */
  lemma {:induction false} RenderAllPointwise<T>(xs: seq<T>, f: T -> Result<string, RenderFailure>)
    ensures RenderAll(xs, f).Success? <==> forall i :: 0 <= i < |xs| ==> f(xs[i]).Success?
    ensures RenderAll(xs, f).Success? ==>
      |RenderAll(xs, f).value| == |xs| && forall i :: 0 <= i < |xs| ==> RenderAll(xs, f).value[i] == f(xs[i]).value
  {
    if |xs| > 0 {
      var init := xs[..|xs| - 1];
      RenderAllPointwise(init, f);
      assert forall i :: 0 <= i < |init| ==> init[i] == xs[i];
    }
  }

  /** A list that fails reports the failure of its first element that fails. */
  lemma RenderAllFirstFailure<T>(xs: seq<T>, f: T -> Result<string, RenderFailure>, i: nat)
    requires i < |xs| && f(xs[i]).Failure?
    requires forall j :: 0 <= j < i ==> f(xs[j]).Success?
    ensures RenderAll(xs, f) == Failure(f(xs[i]).error)
  {
    RenderAllPointwise(xs[..i], f);
    RenderAllPrefixStep(xs, i, f);
    RenderAllPrefixFailure(xs, i + 1, f);
  }

  /** Members render exactly when each of them does, in the same context. */
  lemma {:induction false} MembersSucceedPointwise(o: RendererOptions, ctx: Context, es: seq<Element>)
    ensures MembersText(o, ctx, es).Success? <==> forall i :: 0 <= i < |es| ==> VisitText(o, ctx, es[i]).Success?
  {
    if |es| > 0 {
      var n := |es| - 1;
      var init := es[..n];
      MembersSucceedPointwise(o, ctx, init);
      MembersStep(o, ctx, es, n);
      assert es[..n + 1] == es;
      assert forall i :: 0 <= i < n ==> init[i] == es[i];
    }
  }

  /** Accepting two runs of members one after the other writes the first run's text, then the second's. */
  lemma {:induction false} MembersAppend(o: RendererOptions, ctx: Context, xs: seq<Element>, ys: seq<Element>)
    requires MembersText(o, ctx, xs).Success? && MembersText(o, ctx, ys).Success?
    ensures MembersText(o, ctx, xs + ys) == Success(MembersText(o, ctx, xs).value + MembersText(o, ctx, ys).value)
    decreases |ys|
  {
    if |ys| == 0 {
      assert xs + ys == xs;
      AppendEmpty(MembersText(o, ctx, xs).value);
    } else {
      var init := ys[..|ys| - 1];
      var last := ys[|ys| - 1];
      MembersAppend(o, ctx, xs, init);
      assert (xs + ys)[..|xs + ys| - 1] == xs + init;
      AppendAssoc(MembersText(o, ctx, xs).value, MembersText(o, ctx, init).value, VisitText(o, ctx, last).value);
    }
  }

  // ---------------------------------------------------------------------
  // underBlockDeclaration
  // ---------------------------------------------------------------------

  /**
   * A block whose members wrote nothing leaves nothing behind, not even its
   * brace; otherwise the members stand between ` {` and a `}` on a line of
   * its own at the outer indentation.
   */
  lemma BlockRollsBack(o: RendererOptions, ctx: Context, declaration: Container, members: seq<Element>)
    requires MembersText(o, BlockContext(ctx, declaration), members).Success?
    ensures var inner := MembersText(o, BlockContext(ctx, declaration), members).value;
      && BlockText(o, ctx, declaration, members).Success?
      && (|inner| == 0 <==> BlockText(o, ctx, declaration, members).value == "")
      && (|inner| > 0 ==> BlockText(o, ctx, declaration, members).value == " {" + inner + "\n" + ctx.tabs + "}")
  {
  }

  /** A block whose members are all empty groups writes nothing at all. */
  lemma {:induction false} EmptyGroupsWriteNothing(o: RendererOptions, ctx: Context, es: seq<Element>)
    requires forall i :: 0 <= i < |es| ==> es[i] == OtherNode([])
    ensures MembersText(o, ctx, es) == Success("")
  {
    if |es| > 0 {
      EmptyGroupsWriteNothing(o, ctx, es[..|es| - 1]);
      assert VisitText(o, ctx, es[|es| - 1]) == MembersText(o, ctx, []);
      EmptyAppend("");
    }
  }

  // ---------------------------------------------------------------------
  // Value parameters
  // ---------------------------------------------------------------------

  /** `(`, the parameters rendered one by one and separated by `, `, then `)`. */
  lemma ValueParametersRendering(o: RendererOptions, ps: seq<ValueParameter>, isInPrimaryConstructor: bool)
    ensures ValueParametersText(o, ps, isInPrimaryConstructor).Success? <==>
      forall i :: 0 <= i < |ps| ==> ValueParameterText(o, ps[i], isInPrimaryConstructor, false).Success?
    ensures ValueParametersText(o, ps, isInPrimaryConstructor).Success? ==>
      var texts := seq(|ps|, i requires 0 <= i < |ps| => ValueParameterText(o, ps[i], isInPrimaryConstructor, false).value);
      ValueParametersText(o, ps, isInPrimaryConstructor) == Success("(" + Join(texts, ", ") + ")")
  {
    var f := ListedValueParameterText(o, isInPrimaryConstructor);
    RenderAllPointwise(ps, f);
    assert forall i :: 0 <= i < |ps| ==> f(ps[i]) == ValueParameterText(o, ps[i], isInPrimaryConstructor, false);
    if RenderAll(ps, f).Success? {
      var texts := seq(|ps|, i requires 0 <= i < |ps| => ValueParameterText(o, ps[i], isInPrimaryConstructor, false).value);
      assert RenderAll(ps, f).value == texts;
    }
  }

  /** Between the parentheses there are exactly `n - 1` separators for `n` parameters. */
  lemma ValueParametersLength(o: RendererOptions, ps: seq<ValueParameter>, isInPrimaryConstructor: bool)
    requires ValueParametersText(o, ps, isInPrimaryConstructor).Success?
    ensures var texts := RenderAll(ps, ListedValueParameterText(o, isInPrimaryConstructor)).value;
      |ValueParametersText(o, ps, isInPrimaryConstructor).value|
        == 2 + TotalLength(texts) + (if |ps| == 0 then 0 else 2 * (|ps| - 1))
  {
    var texts := RenderAll(ps, ListedValueParameterText(o, isInPrimaryConstructor)).value;
    RenderAllLength(ps, ListedValueParameterText(o, isInPrimaryConstructor));
    JoinLength(texts, ", ");
  }

  /**
   * A parameter ends with its type, followed by ` = ...` exactly when it has
   * a default value: the default expression itself is never shown.
   */
  lemma DefaultValueElided(o: RendererOptions, p: ValueParameter, isInPrimaryConstructor: bool, topLevel: bool)
    requires ValueParameterText(o, p, isInPrimaryConstructor, topLevel).Success?
    ensures var t := TypeRefText(o, p.returnType, false).value;
      EndsWith(ValueParameterText(o, p, isInPrimaryConstructor, topLevel).value,
               p.name.rendered + ": " + t + (if p.hasDefaultValue then " = ..." else ""))
  {
    var t := TypeRefText(o, p.returnType, false).value;
    var head := (if topLevel then "value-parameter" + " " else "")
      + AnnotationsText(o, p.annotations)
      + ModifierText(p.isCrossinline, "crossinline")
      + ModifierText(p.isNoinline, "noinline")
      + ModifierText(p.isVararg, "vararg")
      + (if isInPrimaryConstructor then ValVarText(p.isVar) else "");
    var tail := p.name.rendered + ": " + t + (if p.hasDefaultValue then " = ..." else "");
    var text := ValueParameterText(o, p, isInPrimaryConstructor, topLevel).value;
    assert text == head + tail;
    assert text[|text| - |tail|..] == tail;
  }

  // ---------------------------------------------------------------------
  // Type parameters and the where clause
  // ---------------------------------------------------------------------

  /** `ListedBounds` keeps exactly the bounds that are not `Any?`. */
  lemma {:induction false} ListedBoundsFilter(bounds: seq<TypeRef>)
    ensures forall b :: b in ListedBounds(bounds) <==> b in bounds && !IsNullableAny(b)
    ensures |ListedBounds(bounds)| == 0 <==> forall i :: 0 <= i < |bounds| ==> IsNullableAny(bounds[i])
  {
    if |bounds| > 0 {
      var init := bounds[..|bounds| - 1];
      ListedBoundsFilter(init);
      assert bounds == init + [bounds[|bounds| - 1]];
      assert forall i :: 0 <= i < |init| ==> init[i] == bounds[i];
    }
  }

  /**
   * Inside a list, a parameter shows at most its first bound inline, and
   * nothing when that bound is `Any?`; at the top level, a single bound is
   * shown the same way.
   */
  lemma FirstBoundOnlyInline(o: RendererOptions, tp: TypeParameter, topLevel: bool)
    requires |tp.bounds| >= 1 && (!topLevel || |tp.bounds| == 1)
    ensures TypeParameterBoundsText(o, tp, topLevel) == FirstBoundText(o, tp.bounds[0])
    ensures IsNullableAny(tp.bounds[0]) ==> TypeParameterBoundsText(o, tp, topLevel) == Success("")
    ensures !IsNullableAny(tp.bounds[0]) && TypeRefText(o, tp.bounds[0], false).Success? ==>
      TypeParameterBoundsText(o, tp, topLevel) == Success(" : " + TypeRefText(o, tp.bounds[0], false).value)
  {
  }

  /**
   * A top-level parameter with several bounds lists all of them but `Any?`,
   * joined by ` & `, and shows nothing when every bound is `Any?`.
   */
  lemma TopLevelBoundsListed(o: RendererOptions, tp: TypeParameter)
    requires |tp.bounds| > 1
    requires TypeParameterBoundsText(o, tp, true).Success?
    ensures var parts := RenderAll(ListedBounds(tp.bounds), BoundText(o)).value;
      TypeParameterBoundsText(o, tp, true) == Success(if |parts| == 0 then "" else " : " + Join(parts, " & "))
    ensures TypeParameterBoundsText(o, tp, true).value == "" <==>
      forall i :: 0 <= i < |tp.bounds| ==> IsNullableAny(tp.bounds[i])
  {
    RenderAllLength(ListedBounds(tp.bounds), BoundText(o));
    ListedBoundsFilter(tp.bounds);
  }

  /** No type parameters: nothing at all; otherwise `<`, the list separated by `, `, `>`, and a space when asked for. */
  lemma TypeParametersRendering(o: RendererOptions, tps: seq<TypeParameter>, withSpace: bool)
    ensures |tps| == 0 ==> TypeParametersText(o, tps, withSpace) == Success("")
    ensures TypeParametersText(o, tps, withSpace).Success? <==>
      forall i :: 0 <= i < |tps| ==> TypeParameterText(o, tps[i], false).Success?
    ensures |tps| > 0 && TypeParametersText(o, tps, withSpace).Success? ==>
      var texts := seq(|tps|, i requires 0 <= i < |tps| => TypeParameterText(o, tps[i], false).value);
      TypeParametersText(o, tps, withSpace) == Success("<" + Join(texts, ", ") + ">" + (if withSpace then " " else ""))
  {
    var f := ListedTypeParameterText(o);
    RenderAllPointwise(tps, f);
    assert forall i :: 0 <= i < |tps| ==> f(tps[i]) == TypeParameterText(o, tps[i], false);
    if |tps| > 0 {
      assert TypeParametersText(o, tps, withSpace).Success? <==> RenderAll(tps, f).Success?;
      if RenderAll(tps, f).Success? {
        var texts := seq(|tps|, i requires 0 <= i < |tps| => TypeParameterText(o, tps[i], false).value);
        assert RenderAll(tps, f).value == texts;
      }
    }
  }

  /** How many bounds the `where` clause lists: all but the first of each parameter. */
  function ExtraBoundCount(tps: seq<TypeParameter>): nat
  {
    if |tps| == 0 then 0 else ExtraBoundCount(tps[..|tps| - 1]) + |DropFirst(tps[|tps| - 1].bounds)|
  }

  lemma {:induction false} ExtraBoundCountZero(tps: seq<TypeParameter>)
    ensures ExtraBoundCount(tps) == 0 <==> forall i :: 0 <= i < |tps| ==> |tps[i].bounds| <= 1
  {
    if |tps| > 0 {
      var init := tps[..|tps| - 1];
      ExtraBoundCountZero(init);
      assert forall i :: 0 <= i < |init| ==> init[i] == tps[i];
    }
  }

  /** One entry per bound after the first, for every parameter. */
  lemma {:induction false} WhereEntriesCount(o: RendererOptions, tps: seq<TypeParameter>)
    requires WhereEntries(o, tps).Success?
    ensures |WhereEntries(o, tps).value| == ExtraBoundCount(tps)
  {
    if |tps| > 0 {
      var tp := tps[|tps| - 1];
      WhereEntriesCount(o, tps[..|tps| - 1]);
      RenderAllLength(DropFirst(tp.bounds), WhereEntryText(o, tp.name));
    }
  }

  /**
   * The `where` entries of one parameter: its name and ` : ` before each of
   * its bounds after the first, in order.
   */
  lemma WhereEntriesOfParameter(o: RendererOptions, tp: TypeParameter)
    requires |tp.bounds| > 1
    requires forall i :: 1 <= i < |tp.bounds| ==> TypeRefText(o, tp.bounds[i], false).Success?
    ensures var rest := tp.bounds[1..];
      WhereEntries(o, [tp]) ==
        Success(seq(|rest|, i requires 0 <= i < |rest| => tp.name.rendered + " : " + TypeRefText(o, rest[i], false).value))
  {
    var rest := tp.bounds[1..];
    var f := WhereEntryText(o, tp.name);
    assert DropFirst(tp.bounds) == rest;
    assert forall i :: 0 <= i < |rest| ==> f(rest[i]) == Success(tp.name.rendered + " : " + TypeRefText(o, rest[i], false).value);
    RenderAllPointwise(rest, f);
    assert [tp][..0] == [];
    var entries := RenderAll(rest, f).value;
    assert WhereEntries(o, [tp]) == Success([] + entries);
    assert [] + entries == entries;
    assert entries ==
      seq(|rest|, i requires 0 <= i < |rest| => tp.name.rendered + " : " + TypeRefText(o, rest[i], false).value);
  }

  /** The `where` clause is written exactly when some parameter has more than one bound. */
  lemma WhereSuffixPresence(o: RendererOptions, tps: seq<TypeParameter>)
    requires WhereSuffixText(o, tps).Success?
    ensures WhereSuffixText(o, tps).value == "" <==> forall i :: 0 <= i < |tps| ==> |tps[i].bounds| <= 1
    ensures WhereSuffixText(o, tps).value != "" ==>
      WhereSuffixText(o, tps).value == " where " + Join(WhereEntries(o, tps).value, ", ")
  {
    WhereEntriesCount(o, tps);
    ExtraBoundCountZero(tps);
  }

  // ---------------------------------------------------------------------
  // Modifiers
  // ---------------------------------------------------------------------

  /**
   * No visibility is written when the option is off or the (normalized)
   * visibility is the default one; otherwise its name and a space.
   */
  lemma VisibilityOmitted(o: RendererOptions, v: Visibility)
    ensures var shown := if o.normalizedVisibilities then o.normalize(v) else v;
      && (VisibilityText(o, v) == "" <==> VisibilityModifier !in o.modifiers || shown == DefaultVisibility)
      && (VisibilityText(o, v) != "" ==> VisibilityText(o, v) == InternalDisplayName(shown) + " ")
  {
  }

  /**
   * A callable's modality is left out when it has none, when it is a final
   * top-level callable, when it is written with `override`, or when the
   * option is off; otherwise the keyword and a space.
   */
  lemma CallableModalityOmitted(o: RendererOptions, modality: Option<Modality>, overrides: bool,
                                containing: Option<Container>)
    ensures CallableModalityText(o, modality, overrides, containing) == "" <==>
      modality.None? || (containing.None? && modality.value == Final) || overrides || ModalityModifier !in o.modifiers
    ensures CallableModalityText(o, modality, overrides, containing) != "" ==>
      CallableModalityText(o, modality, overrides, containing) == ModalityKeyword(modality.value) + " "
  {
  }

  /**
   * A class's modality is left out for an abstract interface, for a final
   * object or enum entry, when it has none, and when the option is off.
   */
  lemma ClassModalityOmitted(o: RendererOptions, c: RegularClass)
    ensures ClassModalityText(o, c) == "" <==>
      (c.classKind == Interface && c.modality == Some(Abstract))
      || (IsSingleton(c.classKind) && c.modality == Some(Final))
      || c.modality.None? || ModalityModifier !in o.modifiers
    ensures ClassModalityText(o, c) != "" ==> ClassModalityText(o, c) == ModalityKeyword(c.modality.value) + " "
  {
  }

  /** An enum entry is rendered up to its name and no further: no type parameters, supertypes or body. */
  lemma EnumEntryStopsAfterName(o: RendererOptions, ctx: Context, c: RegularClass)
    requires c.classKind == EnumEntry
    ensures VisitText(o, ctx, RegularClassNode(c)) == Success(ClassNamedText(o, ctx, c))
  {
    RegularClassVisit(o, ctx, c);
  }

  /** A companion object with the default name is shown as `companion object` without a name. */
  lemma DefaultCompanionUnnamed(o: RendererOptions, ctx: Context, c: RegularClass)
    requires c.isCompanion && c.name.identifier == DefaultCompanionName
    ensures ClassNamedText(o, ctx, c) == ClassModifiersText(o, ctx, c)
    ensures EndsWith(ClassNamedText(o, ctx, c), "companion object")
  {
    var m := ClassModifiersText(o, ctx, c);
    assert ClassNameText(c, m) == "";
    var head := "\n" + ctx.tabs
      + AnnotationsText(o, c.annotations)
      + (if c.classKind != EnumEntry then VisibilityText(o, c.visibility) else "")
      + ClassModalityText(o, c)
      + MemberModifiersText(o, c.flags)
      + ClassKeywordsText(o, c);
    assert m == head + "companion object";
    assert m[|m| - |"companion object"|..] == "companion object";
  }

  /** A function's return type is left out exactly when it is `Unit` and the options do not ask for it. */
  lemma UnitReturnTypeElided(o: RendererOptions, t: TypeRef)
    ensures ReturnTypeText(o, t) == Success("") <==> !o.unitReturnType && IsUnit(t)
  {
  }

  /** `renderSpaceIfNeeded` leaves the builder ending in a space, and never in two new ones. */
  lemma SpaceIfNeededSingle(before: string)
    ensures EndsWith(before + SpaceIfNeeded(before), " ")
    ensures SpaceIfNeeded(before) == "" <==> EndsWith(before, " ")
    ensures |SpaceIfNeeded(before)| <= 1
  {
    var after := before + SpaceIfNeeded(before);
    assert after[|after| - 1] == ' ';
    assert after[|after| - 1..] == [after[|after| - 1]];
    if |before| > 0 {
      assert before[|before| - 1..] == [before[|before| - 1]];
    }
  }

  /**
   * The supertype list is left out for `Nothing`, for no supertypes, and for
   * a lone `Any` or `Any?`; otherwise it follows a single space and `: `.
   */
  lemma SuperTypesOmitted(o: RendererOptions, isNothing: bool, ts: seq<TypeRef>, before: string)
    ensures isNothing || TrivialSuperTypes(ts) ==> SuperTypesText(o, isNothing, ts, before) == Success("")
    ensures !isNothing && !TrivialSuperTypes(ts) && SuperTypesText(o, isNothing, ts, before).Success? ==>
      StartsWith(SuperTypesText(o, isNothing, ts, before).value, SpaceIfNeeded(before) + ": ")
      && EndsWith(before + SpaceIfNeeded(before), " ")
  {
    SpaceIfNeededSingle(before);
    if !isNothing && !TrivialSuperTypes(ts) && SuperTypesText(o, isNothing, ts, before).Success? {
      var prefix := SpaceIfNeeded(before) + ": ";
      var text := SuperTypesText(o, isNothing, ts, before).value;
      assert text == prefix + Join(RenderAll(ts, BoundText(o)).value, ", ");
      assert text[..|prefix|] == prefix;
    }
  }

  // ---------------------------------------------------------------------
  // Bodies and failures
  // ---------------------------------------------------------------------

  /** Without `renderContainingDeclarations`, no declaration opens a block. */
  lemma NoBlocksWithoutContainingDeclarations(o: RendererOptions, ctx: Context, c: RegularClass, f: SimpleFunction,
                                              a: AnonymousObject)
    requires !o.renderContainingDeclarations
    ensures VisitText(o, ctx, RegularClassNode(c)) == ClassHeadText(o, ctx, c)
    ensures VisitText(o, ctx, SimpleFunctionNode(f)) == FunctionHeadText(o, ctx, f)
    ensures VisitText(o, ctx, AnonymousObjectNode(a)) == AnonymousObjectHeadText(o, ctx, a)
  {
    ClassHeadOnly(o, ctx, c);
    FunctionHeadOnly(o, ctx, f);
    AnonymousObjectHeadOnly(o, ctx, a);
  }

  lemma ClassHeadOnly(o: RendererOptions, ctx: Context, c: RegularClass)
    requires !o.renderContainingDeclarations
    ensures VisitText(o, ctx, RegularClassNode(c)) == ClassHeadText(o, ctx, c)
  {
    RegularClassVisit(o, ctx, c);
  }

  lemma FunctionHeadOnly(o: RendererOptions, ctx: Context, f: SimpleFunction)
    requires !o.renderContainingDeclarations
    ensures VisitText(o, ctx, SimpleFunctionNode(f)) == FunctionHeadText(o, ctx, f)
  {
  }

  lemma AnonymousObjectHeadOnly(o: RendererOptions, ctx: Context, a: AnonymousObject)
    requires !o.renderContainingDeclarations
    ensures VisitText(o, ctx, AnonymousObjectNode(a)) == AnonymousObjectHeadText(o, ctx, a)
  {
  }

  /** A property accessor can only be rendered inside a property, and a constructor only inside a class or an enum entry. */
  lemma ContainerChecks(o: RendererOptions, ctx: Context, a: PropertyAccessor, c: Constructor)
    ensures ctx.containing != Some(PropertyContainer) ==>
      VisitText(o, ctx, PropertyAccessorNode(a)) == Failure(AccessorOutsideProperty)
    ensures !IsClassOrEnumEntry(ctx.containing) ==>
      VisitText(o, ctx, ConstructorNode(c)) == Failure(ConstructorOutsideClass)
  {
  }

  /** Inside a function body the containing declaration is the function, so a constructor there fails. */
  lemma ConstructorInFunctionBodyFails(o: RendererOptions, ctx: Context, f: SimpleFunction, c: Constructor)
    requires o.renderContainingDeclarations && f.body == BlockBody([ConstructorNode(c)])
    requires FunctionHeadText(o, ctx, f).Success?
    ensures VisitText(o, ctx, SimpleFunctionNode(f)) == Failure(ConstructorOutsideClass)
  {
    var inner := BlockContext(ctx, SimpleFunctionContainer);
    assert VisitText(o, inner, ConstructorNode(c)) == Failure(ConstructorOutsideClass);
    SingleMemberFails(o, inner, ConstructorNode(c));
    assert BlockText(o, ctx, SimpleFunctionContainer, f.body.statements) == Failure(ConstructorOutsideClass);
  }

  lemma SingleMemberFails(o: RendererOptions, ctx: Context, e: Element)
    requires VisitText(o, ctx, e).Failure?
    ensures MembersText(o, ctx, [e]) == Failure(VisitText(o, ctx, e).error)
  {
    assert [e][..0] == [];
  }

  /** A failing member makes the whole enclosing list fail, whatever follows it. */
  lemma {:induction false} MembersFailWithFirstFailure(o: RendererOptions, ctx: Context, es: seq<Element>, i: nat)
    requires i < |es| && VisitText(o, ctx, es[i]).Failure?
    requires forall j :: 0 <= j < i ==> VisitText(o, ctx, es[j]).Success?
    ensures MembersText(o, ctx, es) == Failure(VisitText(o, ctx, es[i]).error)
  {
    MembersSucceedPointwise(o, ctx, es[..i]);
    assert forall j :: 0 <= j < i ==> es[..i][j] == es[j];
    MembersStep(o, ctx, es, i);
    MembersFailurePersists(o, ctx, es, i + 1, |es|);
    assert es[..|es|] == es;
  }

  // ---------------------------------------------------------------------
  // render
  // ---------------------------------------------------------------------

  /**
   * `render` keeps a contiguous slice of the rendered text: everything cut
   * off at either end is a space, a newline or a tab, and the result neither
   * starts nor ends with one.
   */
  lemma RenderTrims(o: RendererOptions, containing: Option<Container>, declaration: Element)
    requires RenderText(o, containing, declaration).Success?
    ensures IsTrimmedSlice(RenderText(o, containing, declaration).value,
                           VisitText(o, Context(containing, ""), declaration).value, TrimmedChars)
  {
    var full := VisitText(o, Context(containing, ""), declaration).value;
    assert RenderText(o, containing, declaration).value == Trim(full, TrimmedChars);
    TrimIsMaximalSlice(full, TrimmedChars);
  }

  /** A top-level constructor cannot be rendered. */
  lemma TopLevelConstructorFails(o: RendererOptions, c: Constructor)
    ensures RenderText(o, None, ConstructorNode(c)) == Failure(ConstructorOutsideClass)
  {
    assert !IsClassOrEnumEntry(Context(None, "").containing);
    assert VisitText(o, Context(None, ""), ConstructorNode(c)) == Failure(ConstructorOutsideClass);
  }
}
