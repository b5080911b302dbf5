/**
 * The declaration renderer: a visitor with two mutable fields
 * (`containingDeclaration`, `tabbedString`) that appends to a string builder.
 * The builder is threaded through as a value: each method receives the text
 * built so far and returns it with its own text appended, or the failure that
 * stopped it.
 *
 * Every method is proved to append exactly what `DeclarationText` specifies,
 * and every visit that succeeds leaves both fields as it found them.
 */
module DeclarationRenderer {
  import opened Wrappers
  import opened Text
  import opened ConeTypes
  import CTR = ConeTypeRenderer
  import opened FirDeclarations
  import opened DeclarationText

  /** `renderSpaceIfNeeded` */
  method RenderSpaceIfNeeded(data: string) returns (out: string)
    ensures out == data + SpaceIfNeeded(data)
  {
    if |data| == 0 || data[|data| - 1] != ' ' {
      out := data + " ";
    } else {
      out := data;
      AppendEmpty(data);
    }
  }

  class FirRenderer {
    var containingDeclaration: Option<Container>
    var tabbedString: string
    const options: RendererOptions

    constructor(containingDeclaration: Option<Container>, options: RendererOptions)
      ensures this.containingDeclaration == containingDeclaration && this.tabbedString == ""
      ensures this.options == options
    {
      this.containingDeclaration := containingDeclaration;
      this.tabbedString := "";
      this.options := options;
    }

    /** The renderer's state as the specification sees it. */
    function State(): Context
      reads this
    {
      Context(containingDeclaration, tabbedString)
    }

    /** `renderType(firRef, approximate)` */
    method RenderTypeRef(t: TypeRef, approximate: bool) returns (r: Result<string, RenderFailure>)
      ensures r == TypeRefText(options, t, approximate)
    {
      var shown := if approximate && t.approximation.Some? then t.approximation.value else t.coneType;
      var text := CTR.RenderType(options.typeOptions, shown, Some(t.annotations));
      if text.None? {
        return Failure(TypeNotRenderable);
      }
      return Success(text.value);
    }

    /** `supertypes.map { renderType(it) }`: each type rendered, in order. */
    method RenderTypeRefs(ts: seq<TypeRef>) returns (r: Result<seq<string>, RenderFailure>)
      ensures r == RenderAll(ts, BoundText(options))
    {
      var texts: seq<string> := [];
      for i := 0 to |ts|
        invariant RenderAll(ts[..i], BoundText(options)) == Success(texts)
      {
        var t := RenderTypeRef(ts[i], false);
        RenderAllPrefixStep(ts, i, BoundText(options));
        if t.Failure? {
          RenderAllPrefixFailure(ts, i + 1, BoundText(options));
          return Failure(t.error);
        }
        texts := texts + [t.value];
      }
      assert ts[..|ts|] == ts;
      return Success(texts);
    }

    // -------------------------------------------------------------------
    // Type parameters
    // -------------------------------------------------------------------

    /** `renderTypeParameter(typeParameter, topLevel)` */
    method RenderTypeParameter(tp: TypeParameter, topLevel: bool, data: string) returns (r: Result<string, RenderFailure>)
      ensures r == AppendedTo(data, TypeParameterText(options, tp, topLevel))
    {
      var out := data;
      var open := if topLevel then "<" else "";
      out := out + open;
      var reified := ModifierText(tp.isReified, "reified");
      out := out + reified;
      AppendAssoc(data, open, reified);
      ghost var acc := open + reified;
      var variance := VarianceLabel(tp.variance);
      var varianceText := ModifierText(|variance| > 0, variance);
      out := out + varianceText;
      AppendAssoc(data, acc, varianceText);
      acc := acc + varianceText;
      var annotations := AnnotationsText(options, tp.annotations);
      out := out + annotations;
      AppendAssoc(data, acc, annotations);
      acc := acc + annotations;
      out := out + tp.name.rendered;
      AppendAssoc(data, acc, tp.name.rendered);
      acc := acc + tp.name.rendered;
      assert acc == TypeParameterHeadText(options, tp, topLevel);

      ghost var head := out;
      ghost var bounds := "";
      var upperBoundsCount := |tp.bounds|;
      if (upperBoundsCount > 1 && !topLevel) || upperBoundsCount == 1 {
        var upperBound := tp.bounds[0];
        if !IsNullableAny(upperBound) {
          var t := RenderTypeRef(upperBound, false);
          if t.Failure? {
            return Failure(t.error);
          }
          out := out + " : " + t.value;
          AppendAssoc(head, " : ", t.value);
          bounds := " : " + t.value;
        } else {
          AppendEmpty(head);
        }
      } else if topLevel {
        var all := RenderAllBounds(tp.bounds, out);
        if all.Failure? {
          return Failure(all.error);
        }
        out := all.value;
        bounds := AllBoundsText(options, tp.bounds).value;
      } else {
        AppendEmpty(head);
      }
      assert TypeParameterBoundsText(options, tp, topLevel) == Success(bounds);
      AppendAssoc(data, acc, bounds);
      acc := acc + bounds;
      var close := if topLevel then ">" else "";
      out := out + close;
      AppendAssoc(data, acc, close);
      return Success(out);
    }

    /** The `for` loop of `renderTypeParameter` over all bounds of a top-level parameter. */
    method RenderAllBounds(bounds: seq<TypeRef>, data: string) returns (r: Result<string, RenderFailure>)
      ensures r == AppendedTo(data, AllBoundsText(options, bounds))
    {
      var out := data;
      var first := true;
      ghost var parts: seq<string> := [];
      for i := 0 to |bounds|
        invariant RenderAll(ListedBounds(bounds[..i]), BoundText(options)) == Success(parts)
        invariant first <==> |parts| == 0
        invariant out == data + BoundsWritten(parts)
      {
        BoundsStep(options, bounds, i, parts);
        var upperBound := bounds[i];
        if IsNullableAny(upperBound) {
          continue;
        }
        var separator := if first then " : " else " & ";
        out := out + separator;
        var t := RenderTypeRef(upperBound, false);
        if t.Failure? {
          return Failure(t.error);
        }
        BoundsWrittenSnoc(parts, t.value);
        AppendThree(data, BoundsWritten(parts), separator, t.value);
        out := out + t.value;
        first := false;
        parts := parts + [t.value];
      }
      assert bounds[..|bounds|] == bounds;
      return Success(out);
    }

    /** `renderTypeParameterList` */
    method RenderTypeParameterList(tps: seq<TypeParameter>, data: string) returns (r: Result<string, RenderFailure>)
      ensures r == AppendedTo(data, TypeParameterListText(options, tps))
    {
      var out := data;
      ghost var texts: seq<string> := [];
      AppendEmpty(data);
      AppendEmpty(data + "");
      var i := 0;
      while i < |tps|
        invariant 0 <= i <= |tps| && |texts| == i
        invariant RenderAll(tps[..i], ListedTypeParameterText(options)) == Success(texts)
        invariant out == data + Join(texts, ", ") + (if 0 < i < |tps| then ", " else "")
      {
        var text := RenderTypeParameter(tps[i], false, out);
        RenderAllPrefixStep(tps, i, ListedTypeParameterText(options));
        if text.Failure? {
          RenderAllPrefixFailure(tps, i + 1, ListedTypeParameterText(options));
          return Failure(text.error);
        }
        ghost var x := TypeParameterText(options, tps[i], false).value;
        JoinPendingStep(data, texts, x, ", ");
        texts := texts + [x];
        out := text.value;
        if i + 1 < |tps| {
          out := out + ", ";
        } else {
          AppendEmpty(out);
        }
        i := i + 1;
      }
      assert tps[..i] == tps;
      AppendEmpty(data + Join(texts, ", "));
      return Success(out);
    }

    /** `renderTypeParameters(typeParameters, withSpace)` */
    method RenderTypeParameters(tps: seq<TypeParameter>, withSpace: bool, data: string)
      returns (r: Result<string, RenderFailure>)
      ensures r == AppendedTo(data, TypeParametersText(options, tps, withSpace))
    {
      if |tps| == 0 {
        AppendEmpty(data);
        return Success(data);
      }
      var out := data + "<";
      var list := RenderTypeParameterList(tps, out);
      if list.Failure? {
        return Failure(list.error);
      }
      out := list.value + ">";
      var space := if withSpace then " " else "";
      out := out + space;
      AppendPieces(data, "<", TypeParameterListText(options, tps).value, ">", space);
      return Success(out);
    }

    /** `renderWhereSuffix` */
    method RenderWhereSuffix(tps: seq<TypeParameter>, data: string) returns (r: Result<string, RenderFailure>)
      ensures r == AppendedTo(data, WhereSuffixText(options, tps))
    {
      var upperBoundStrings: seq<string> := [];
      for i := 0 to |tps|
        invariant WhereEntries(options, tps[..i]) == Success(upperBoundStrings)
      {
        var typeParameterFir := tps[i];
        var entries := MapBoundsTo(typeParameterFir.name, DropFirst(typeParameterFir.bounds), upperBoundStrings);
        WhereEntriesStep(options, tps, i);
        if entries.Failure? {
          WhereEntriesFailurePersists(options, tps, i + 1, |tps|);
          assert tps[..|tps|] == tps;
          return Failure(entries.error);
        }
        upperBoundStrings := entries.value;
      }
      assert tps[..|tps|] == tps;
      if |upperBoundStrings| > 0 {
        var out := data + " " + "where" + " ";
        out := out + Join(upperBoundStrings, ", ");
        AppendPieces(data, " ", "where", " ", Join(upperBoundStrings, ", "));
        return Success(out);
      }
      AppendEmpty(data);
      return Success(data);
    }

    /** `bounds.mapTo(destination) { name.render() + " : " + renderType(it) }` */
    method MapBoundsTo(name: Name, bounds: seq<TypeRef>, destination: seq<string>)
      returns (r: Result<seq<string>, RenderFailure>)
      ensures var entries := RenderAll(bounds, WhereEntryText(options, name));
        && (entries.Failure? ==> r == Failure(entries.error))
        && (entries.Success? ==> r == Success(destination + entries.value))
    {
      var out := destination;
      ghost var entries: seq<string> := [];
      for j := 0 to |bounds|
        invariant RenderAll(bounds[..j], WhereEntryText(options, name)) == Success(entries)
        invariant out == destination + entries
      {
        var t := RenderTypeRef(bounds[j], false);
        RenderAllPrefixStep(bounds, j, WhereEntryText(options, name));
        if t.Failure? {
          RenderAllPrefixFailure(bounds, j + 1, WhereEntryText(options, name));
          return Failure(t.error);
        }
        var entry := name.rendered + " : " + t.value;
        out := out + [entry];
        entries := entries + [entry];
      }
      assert bounds[..|bounds|] == bounds;
      return Success(out);
    }

    // -------------------------------------------------------------------
    // Receivers, value parameters, supertypes
    // -------------------------------------------------------------------

    /** `renderReceiver` */
    method RenderReceiver(receiverType: Option<TypeRef>, receiverAnnotations: string, data: string)
      returns (r: Result<string, RenderFailure>)
      ensures r == AppendedTo(data, ReceiverText(options, receiverType, receiverAnnotations))
    {
      if receiverType.None? {
        AppendEmpty(data);
        return Success(data);
      }
      var annotations := AnnotationsText(options, receiverAnnotations);
      var out := data + annotations;
      var rendered := RenderTypeRef(receiverType.value, false);
      if rendered.Failure? {
        return Failure(rendered.error);
      }
      var result := rendered.value;
      if CTR.ShouldRenderAsPrettyFunctionType(receiverType.value.coneType) && receiverType.value.coneType.isMarkedNullable {
        result := "(" + result + ")";
      }
      out := out + result + ".";
      AppendThree(data, annotations, result, ".");
      return Success(out);
    }

    /** `renderValueParameter(valueParameter, isInPrimaryConstructor, topLevel)` */
    method RenderValueParameter(p: ValueParameter, isInPrimaryConstructor: bool, topLevel: bool, data: string)
      returns (r: Result<string, RenderFailure>)
      ensures r == AppendedTo(data, ValueParameterText(options, p, isInPrimaryConstructor, topLevel))
    {
      var prefix := if topLevel then "value-parameter" + " " else "";
      var out := data + prefix;
      ghost var acc := prefix;
      var annotations := AnnotationsText(options, p.annotations);
      out := out + annotations;
      AppendAssoc(data, acc, annotations);
      acc := acc + annotations;
      var crossinline := ModifierText(p.isCrossinline, "crossinline");
      out := out + crossinline;
      AppendAssoc(data, acc, crossinline);
      acc := acc + crossinline;
      var noinline := ModifierText(p.isNoinline, "noinline");
      out := out + noinline;
      AppendAssoc(data, acc, noinline);
      acc := acc + noinline;
      // renderVariable
      var vararg := ModifierText(p.isVararg, "vararg");
      out := out + vararg;
      AppendAssoc(data, acc, vararg);
      acc := acc + vararg;
      var valVar := if isInPrimaryConstructor then ValVarText(p.isVar) else "";
      out := out + valVar;
      AppendAssoc(data, acc, valVar);
      acc := acc + valVar;
      out := out + p.name.rendered;
      AppendAssoc(data, acc, p.name.rendered);
      acc := acc + p.name.rendered;
      out := out + ": ";
      AppendAssoc(data, acc, ": ");
      acc := acc + ": ";
      var t := RenderTypeRef(p.returnType, false);
      if t.Failure? {
        return Failure(t.error);
      }
      out := out + t.value;
      AppendAssoc(data, acc, t.value);
      acc := acc + t.value;
      var defaultValue := if p.hasDefaultValue then " = ..." else "";
      out := out + defaultValue;
      AppendAssoc(data, acc, defaultValue);
      return Success(out);
    }

    /** `renderValueParameters(parameters, isInPrimaryConstructor)` */
    method RenderValueParameters(ps: seq<ValueParameter>, isInPrimaryConstructor: bool, data: string)
      returns (r: Result<string, RenderFailure>)
      ensures r == AppendedTo(data, ValueParametersText(options, ps, isInPrimaryConstructor))
    {
      var parameterCount := |ps|;
      var out := data + "(";
      ghost var texts: seq<string> := [];
      ghost var f := ListedValueParameterText(options, isInPrimaryConstructor);
      AppendEmpty(data + "(");
      AppendEmpty(data + "(" + "");
      for index := 0 to parameterCount
        invariant |texts| == index
        invariant RenderAll(ps[..index], f) == Success(texts)
        invariant out == data + "(" + Join(texts, ", ") + (if 0 < index < parameterCount then ", " else "")
      {
        var text := RenderValueParameter(ps[index], isInPrimaryConstructor, false, out);
        RenderAllPrefixStep(ps, index, f);
        if text.Failure? {
          RenderAllPrefixFailure(ps, index + 1, f);
          return Failure(text.error);
        }
        ghost var x := ValueParameterText(options, ps[index], isInPrimaryConstructor, false).value;
        JoinPendingStep(data + "(", texts, x, ", ");
        texts := texts + [x];
        out := text.value;
        if index != parameterCount - 1 {
          out := out + ", ";
        } else {
          AppendEmpty(out);
        }
      }
      assert ps[..parameterCount] == ps;
      AppendEmpty(data + "(" + Join(texts, ", "));
      out := out + ")";
      AppendThree(data, "(", Join(texts, ", "), ")");
      return Success(out);
    }

    /** `renderSuperTypes`, on a builder holding `data`. */
    method RenderSuperTypes(isNothing: bool, supertypes: seq<TypeRef>, data: string)
      returns (r: Result<string, RenderFailure>)
      ensures r == AppendedTo(data, SuperTypesText(options, isNothing, supertypes, data))
    {
      if isNothing {
        AppendEmpty(data);
        return Success(data);
      }
      if |supertypes| == 0 || (|supertypes| == 1 && (IsAny(supertypes[0]) || IsNullableAny(supertypes[0]))) {
        AppendEmpty(data);
        return Success(data);
      }
      var out := RenderSpaceIfNeeded(data);
      out := out + ": ";
      var texts := RenderTypeRefs(supertypes);
      if texts.Failure? {
        return Failure(texts.error);
      }
      out := out + Join(texts.value, ", ");
      AppendThree(data, SpaceIfNeeded(data), ": ", Join(texts.value, ", "));
      return Success(out);
    }
      // -------------------------------------------------------------------
    // Visits
    // -------------------------------------------------------------------

    /** `visitProperty` */
    method VisitProperty(p: Property, data: string) returns (r: Result<string, RenderFailure>)
      ensures r == AppendedTo(data, PropertyText(options, State(), p))
    {
      var out := data + "\n";
      out := out + tabbedString;
      ghost var acc := "\n" + tabbedString;
      AppendAssoc(data, "\n", tabbedString);
      var annotations := AnnotationsText(options, p.annotations);
      out := out + annotations;
      AppendAssoc(data, acc, annotations);
      acc := acc + annotations;
      var visibility := VisibilityText(options, p.visibility);
      out := out + visibility;
      AppendAssoc(data, acc, visibility);
      acc := acc + visibility;
      var const_ := ModifierText(ConstModifier in options.modifiers && p.isConst, "const");
      out := out + const_;
      AppendAssoc(data, acc, const_);
      acc := acc + const_;
      var member := MemberModifiersText(options, p.flags);
      out := out + member;
      AppendAssoc(data, acc, member);
      acc := acc + member;
      var modality := CallableModalityText(options, p.modality, p.overrides, containingDeclaration);
      out := out + modality;
      AppendAssoc(data, acc, modality);
      acc := acc + modality;
      var override_ := OverrideText(options, p.overrides);
      out := out + override_;
      AppendAssoc(data, acc, override_);
      acc := acc + override_;
      var lateinit := ModifierText(LateinitModifier in options.modifiers && p.isLateInit, "lateinit");
      out := out + lateinit;
      AppendAssoc(data, acc, lateinit);
      acc := acc + lateinit;
      var valVar := ValVarText(p.isVar);
      out := out + valVar;
      AppendAssoc(data, acc, valVar);
      acc := acc + valVar;
      assert acc == PropertyModifiersText(options, State(), p);

      var typeParameters := RenderTypeParameters(p.typeParameters, true, out);
      if typeParameters.Failure? {
        return Failure(typeParameters.error);
      }
      out := typeParameters.value;
      ghost var piece := TypeParametersText(options, p.typeParameters, true).value;
      AppendAssoc(data, acc, piece);
      acc := acc + piece;
      var receiver := RenderReceiver(p.receiverType, p.receiverAnnotations, out);
      if receiver.Failure? {
        return Failure(receiver.error);
      }
      out := receiver.value;
      piece := ReceiverText(options, p.receiverType, p.receiverAnnotations).value;
      AppendAssoc(data, acc, piece);
      acc := acc + piece;
      out := out + p.name.rendered;
      AppendAssoc(data, acc, p.name.rendered);
      acc := acc + p.name.rendered;
      out := out + ": ";
      AppendAssoc(data, acc, ": ");
      acc := acc + ": ";
      var returnType := RenderTypeRef(p.returnType, options.approximateTypes);
      if returnType.Failure? {
        return Failure(returnType.error);
      }
      out := out + returnType.value;
      AppendAssoc(data, acc, returnType.value);
      acc := acc + returnType.value;
      var where := RenderWhereSuffix(p.typeParameters, out);
      if where.Failure? {
        return Failure(where.error);
      }
      out := where.value;
      piece := WhereSuffixText(options, p.typeParameters).value;
      AppendAssoc(data, acc, piece);
      return Success(out);
    }

    /** `visitPropertyAccessor` */
    method VisitPropertyAccessor(a: PropertyAccessor, data: string) returns (r: Result<string, RenderFailure>)
      modifies this
      ensures r == AppendedTo(data, VisitText(options, old(State()), PropertyAccessorNode(a)))
      ensures r.Success? ==> State() == old(State())
      decreases a, 2
    {
      if containingDeclaration != Some(PropertyContainer) {
        return Failure(AccessorOutsideProperty);
      }
      var annotations := AnnotationsText(options, a.annotations);
      var out := data + annotations;
      ghost var acc := annotations;
      var visibility := VisibilityText(options, a.visibility);
      out := out + visibility;
      AppendAssoc(data, acc, visibility);
      acc := acc + visibility;
      var modality := CallableModalityText(options, a.modality, a.overrides, containingDeclaration);
      out := out + modality;
      AppendAssoc(data, acc, modality);
      acc := acc + modality;
      var member := MemberModifiersText(options, a.flags);
      out := out + member;
      AppendAssoc(data, acc, member);
      acc := acc + member;
      var additional := AdditionalModifiersText(a.functionFlags);
      out := out + additional;
      AppendAssoc(data, acc, additional);
      acc := acc + additional;
      var keyword := if a.isGetter then "get" else "set";
      out := out + keyword;
      AppendAssoc(data, acc, keyword);
      acc := acc + keyword;
      out := out + " ";
      AppendAssoc(data, acc, " ");
      acc := acc + " ";
      assert acc == AccessorHeadText(options, State(), a);
      if options.renderContainingDeclarations && a.body.BlockBody? {
        var body := AcceptAll(a.body.statements, out);
        if body.Failure? {
          return Failure(body.error);
        }
        AppendAssoc(data, acc, MembersText(options, old(State()), a.body.statements).value);
        out := body.value;
      }
      return Success(out);
    }

    /** `visitSimpleFunction` */
    method VisitSimpleFunction(f: SimpleFunction, data: string) returns (r: Result<string, RenderFailure>)
      modifies this
      ensures r == AppendedTo(data, VisitText(options, old(State()), SimpleFunctionNode(f)))
      ensures r.Success? ==> State() == old(State())
      decreases f, 2
    {
      var head := RenderFunctionHead(f, data);
      if head.Failure? {
        return Failure(head.error);
      }
      var out := head.value;
      if options.renderContainingDeclarations && f.body.BlockBody? {
        var block := UnderBlockDeclaration(SimpleFunctionContainer, f.body.statements, out);
        if block.Failure? {
          return Failure(block.error);
        }
        AppendAssoc(data, FunctionHeadText(options, old(State()), f).value,
                    BlockText(options, old(State()), SimpleFunctionContainer, f.body.statements).value);
        out := block.value;
      }
      return Success(out);
    }

    /** The part of `visitSimpleFunction` before the body. */
    method RenderFunctionHead(f: SimpleFunction, data: string) returns (r: Result<string, RenderFailure>)
      ensures r == AppendedTo(data, FunctionHeadText(options, State(), f))
    {
      var out := data + "\n";
      out := out + tabbedString;
      ghost var acc := "\n" + tabbedString;
      AppendAssoc(data, "\n", tabbedString);
      var annotations := AnnotationsText(options, f.annotations);
      out := out + annotations;
      AppendAssoc(data, acc, annotations);
      acc := acc + annotations;
      var visibility := VisibilityText(options, f.visibility);
      out := out + visibility;
      AppendAssoc(data, acc, visibility);
      acc := acc + visibility;
      var modality := CallableModalityText(options, f.modality, f.overrides, containingDeclaration);
      out := out + modality;
      AppendAssoc(data, acc, modality);
      acc := acc + modality;
      var member := MemberModifiersText(options, f.flags);
      out := out + member;
      AppendAssoc(data, acc, member);
      acc := acc + member;
      var override_ := OverrideText(options, f.overrides);
      out := out + override_;
      AppendAssoc(data, acc, override_);
      acc := acc + override_;
      var additional := AdditionalModifiersText(f.functionFlags);
      out := out + additional;
      AppendAssoc(data, acc, additional);
      acc := acc + additional;
      assert acc == FunctionModifiersText(options, State(), f);
      out := out + "fun ";
      AppendAssoc(data, acc, "fun ");
      acc := acc + "fun ";

      var typeParameters := RenderTypeParameters(f.typeParameters, true, out);
      if typeParameters.Failure? {
        return Failure(typeParameters.error);
      }
      out := typeParameters.value;
      ghost var piece := TypeParametersText(options, f.typeParameters, true).value;
      AppendAssoc(data, acc, piece);
      acc := acc + piece;
      var receiver := RenderReceiver(f.receiverType, f.receiverAnnotations, out);
      if receiver.Failure? {
        return Failure(receiver.error);
      }
      out := receiver.value;
      piece := ReceiverText(options, f.receiverType, f.receiverAnnotations).value;
      AppendAssoc(data, acc, piece);
      acc := acc + piece;
      out := out + f.name.rendered;
      AppendAssoc(data, acc, f.name.rendered);
      acc := acc + f.name.rendered;
      var parameters := RenderValueParameters(f.valueParameters, false, out);
      if parameters.Failure? {
        return Failure(parameters.error);
      }
      out := parameters.value;
      piece := ValueParametersText(options, f.valueParameters, false).value;
      AppendAssoc(data, acc, piece);
      acc := acc + piece;

      var returnType := f.returnType;
      var returnText := "";
      if options.unitReturnType || !IsUnit(returnType) {
        var t := RenderTypeRef(returnType, options.approximateTypes);
        if t.Failure? {
          return Failure(t.error);
        }
        returnText := ": " + t.value;
      }
      assert ReturnTypeText(options, returnType) == Success(returnText);
      out := out + returnText;
      AppendAssoc(data, acc, returnText);
      acc := acc + returnText;

      var where := RenderWhereSuffix(f.typeParameters, out);
      if where.Failure? {
        return Failure(where.error);
      }
      out := where.value;
      piece := WhereSuffixText(options, f.typeParameters).value;
      AppendAssoc(data, acc, piece);
      return Success(out);
    }
      /** `visitTypeAlias` */
    method VisitTypeAlias(a: TypeAlias, data: string) returns (r: Result<string, RenderFailure>)
      ensures r == AppendedTo(data, TypeAliasText(options, a))
    {
      var annotations := AnnotationsText(options, a.annotations);
      var out := data + annotations;
      ghost var acc := annotations;
      var visibility := VisibilityText(options, a.visibility);
      out := out + visibility;
      AppendAssoc(data, acc, visibility);
      acc := acc + visibility;
      var member := MemberModifiersText(options, a.flags);
      out := out + member;
      AppendAssoc(data, acc, member);
      acc := acc + member;
      out := out + "typealias";
      AppendAssoc(data, acc, "typealias");
      acc := acc + "typealias";
      out := out + " ";
      AppendAssoc(data, acc, " ");
      acc := acc + " ";
      out := out + a.name.rendered;
      AppendAssoc(data, acc, a.name.rendered);
      acc := acc + a.name.rendered;
      var typeParameters := RenderTypeParameters(a.typeParameters, false, out);
      if typeParameters.Failure? {
        return Failure(typeParameters.error);
      }
      out := typeParameters.value;
      ghost var piece := TypeParametersText(options, a.typeParameters, false).value;
      AppendAssoc(data, acc, piece);
      acc := acc + piece;
      var expanded := RenderTypeRef(a.expandedType, false);
      if expanded.Failure? {
        return Failure(expanded.error);
      }
      out := out + " = " + expanded.value;
      AppendThree(data, acc, " = ", expanded.value);
      return Success(out);
    }

    /** The part of `visitAnonymousObject` before the declarations. */
    method RenderAnonymousObjectHead(a: AnonymousObject, data: string) returns (r: Result<string, RenderFailure>)
      ensures r == AppendedTo(data, AnonymousObjectHeadText(options, State(), a))
    {
      var out := data + "\n";
      out := out + tabbedString;
      var annotations := AnnotationsText(options, a.annotations);
      out := out + annotations;
      out := out + "object";
      ghost var head := "\n" + tabbedString + annotations + "object";
      AppendPieces(data, "\n", tabbedString, annotations, "object");
      var superTypes := RenderSuperTypes(false, a.superTypes, out);
      SuperTypesTextLocal(options, false, a.superTypes, data, head);
      if superTypes.Failure? {
        return Failure(superTypes.error);
      }
      AppendAssoc(data, head, SuperTypesText(options, false, a.superTypes, head).value);
      return superTypes;
    }

    /** `visitAnonymousObject` */
    method VisitAnonymousObject(a: AnonymousObject, data: string) returns (r: Result<string, RenderFailure>)
      modifies this
      ensures r == AppendedTo(data, VisitText(options, old(State()), AnonymousObjectNode(a)))
      ensures r.Success? ==> State() == old(State())
      decreases a, 2
    {
      var head := RenderAnonymousObjectHead(a, data);
      if head.Failure? {
        return Failure(head.error);
      }
      var out := head.value;
      if options.renderContainingDeclarations {
        var block := UnderBlockDeclaration(AnonymousObjectContainer, a.declarations, out);
        if block.Failure? {
          return Failure(block.error);
        }
        AppendAssoc(data, AnonymousObjectHeadText(options, old(State()), a).value,
                    BlockText(options, old(State()), AnonymousObjectContainer, a.declarations).value);
        out := block.value;
      }
      return Success(out);
    }

    /** The part of `visitConstructor` before the body. */
    method RenderConstructorHead(c: Constructor, data: string) returns (r: Result<string, RenderFailure>)
      ensures IsClassOrEnumEntry(State().containing) ==> r == AppendedTo(data, ConstructorHeadText(options, State(), c))
      ensures !IsClassOrEnumEntry(State().containing) ==> r == Failure(ConstructorOutsideClass)
    {
      var out := data + "\n";
      out := out + tabbedString;
      ghost var acc := "\n" + tabbedString;
      AppendAssoc(data, "\n", tabbedString);
      var containingClass := containingDeclaration;
      if !IsClassOrEnumEntry(containingClass) {
        return Failure(ConstructorOutsideClass);
      }
      var annotations := AnnotationsText(options, c.annotations);
      out := out + annotations;
      AppendAssoc(data, acc, annotations);
      acc := acc + annotations;
      out := out + "constructor";
      AppendAssoc(data, acc, "constructor");
      acc := acc + "constructor";
      out := out + " ";
      AppendAssoc(data, acc, " ");
      acc := acc + " ";
      var name := ContainerNameText(containingClass.value);
      out := out + name;
      AppendAssoc(data, acc, name);
      acc := acc + name;
      var typeParameters := RenderTypeParameters(c.typeParameters, false, out);
      if typeParameters.Failure? {
        return Failure(typeParameters.error);
      }
      out := typeParameters.value;
      ghost var piece := TypeParametersText(options, c.typeParameters, false).value;
      AppendAssoc(data, acc, piece);
      acc := acc + piece;
      var parameters := RenderValueParameters(c.valueParameters, c.isPrimary, out);
      if parameters.Failure? {
        return Failure(parameters.error);
      }
      out := parameters.value;
      piece := ValueParametersText(options, c.valueParameters, c.isPrimary).value;
      AppendAssoc(data, acc, piece);
      acc := acc + piece;
      var where := RenderWhereSuffix(c.typeParameters, out);
      if where.Failure? {
        return Failure(where.error);
      }
      out := where.value;
      piece := WhereSuffixText(options, c.typeParameters).value;
      AppendAssoc(data, acc, piece);
      return Success(out);
    }

    /** `visitConstructor` */
    method VisitConstructor(c: Constructor, data: string) returns (r: Result<string, RenderFailure>)
      modifies this
      ensures r == AppendedTo(data, VisitText(options, old(State()), ConstructorNode(c)))
      ensures r.Success? ==> State() == old(State())
      decreases c, 2
    {
      var head := RenderConstructorHead(c, data);
      if head.Failure? {
        return Failure(head.error);
      }
      var out := head.value;
      if options.renderContainingDeclarations && c.body.BlockBody? {
        var block := UnderBlockDeclaration(ConstructorContainer, c.body.statements, out);
        if block.Failure? {
          return Failure(block.error);
        }
        AppendAssoc(data, ConstructorHeadText(options, old(State()), c).value,
                    BlockText(options, old(State()), ConstructorContainer, c.body.statements).value);
        out := block.value;
      }
      return Success(out);
    }

    /** The part of `visitRegularClass` up to and including the classifier keyword. */
    method RenderClassModifiers(c: RegularClass, data: string) returns (out: string)
      ensures out == data + ClassModifiersText(options, State(), c)
    {
      out := data + "\n";
      out := out + tabbedString;
      ghost var acc := "\n" + tabbedString;
      AppendAssoc(data, "\n", tabbedString);
      var annotations := AnnotationsText(options, c.annotations);
      out := out + annotations;
      AppendAssoc(data, acc, annotations);
      acc := acc + annotations;
      var visibility := if c.classKind != EnumEntry then VisibilityText(options, c.visibility) else "";
      out := out + visibility;
      AppendAssoc(data, acc, visibility);
      acc := acc + visibility;
      var haveNotModality :=
        (c.classKind == Interface && c.modality == Some(Abstract)) || (IsSingleton(c.classKind) && c.modality == Some(Final));
      var modality := if !haveNotModality && c.modality.Some? then ModalityText(options, c.modality.value) else "";
      assert modality == ClassModalityText(options, c);
      out := out + modality;
      AppendAssoc(data, acc, modality);
      acc := acc + modality;
      var member := MemberModifiersText(options, c.flags);
      out := out + member;
      AppendAssoc(data, acc, member);
      acc := acc + member;
      var keywords := ClassKeywordsText(options, c);
      out := out + keywords;
      AppendAssoc(data, acc, keywords);
      acc := acc + keywords;
      var prefix := ClassifierKindPrefix(c);
      out := out + prefix;
      AppendAssoc(data, acc, prefix);
      acc := acc + prefix;
      assert acc == ClassModifiersText(options, State(), c);
    }

    /**
     * The class's name, after a space when the builder does not end in one;
     * a companion object named by default is not named.
     */
    method RenderClassName(c: RegularClass, data: string) returns (out: string)
      ensures out == data + ClassNameText(c, data)
    {
      out := data;
      if !c.isCompanion || c.name.identifier != DefaultCompanionName {
        out := RenderSpaceIfNeeded(out);
        out := out + c.name.rendered;
      }
    }

    /** The part of `visitRegularClass` up to and including the name. */
    method RenderClassNamed(c: RegularClass, data: string) returns (out: string)
      ensures out == data + ClassNamedText(options, State(), c)
    {
      out := RenderClassModifiers(c, data);
      ghost var modifiers := ClassModifiersText(options, State(), c);
      ClassModifiersNotEmpty(options, State(), c);
      out := RenderClassName(c, out);
      ClassNameTextLocal(c, data, modifiers);
      AppendAssoc(data, modifiers, ClassNameText(c, modifiers));
    }

    /** The part of `visitRegularClass` before the declarations (all of it for an enum entry). */
    method RenderClassHead(c: RegularClass, data: string) returns (r: Result<string, RenderFailure>)
      ensures r == AppendedTo(data, ClassHeadText(options, State(), c))
    {
      var out := RenderClassNamed(c, data);
      ghost var named := ClassNamedText(options, State(), c);
      if c.classKind == EnumEntry {
        return Success(out);
      }

      var typeParameters := OwnTypeParameters(c.typeParameters);
      var typeParametersText := RenderTypeParameters(typeParameters, false, out);
      if typeParametersText.Failure? {
        return Failure(typeParametersText.error);
      }
      out := typeParametersText.value;
      ghost var piece := TypeParametersText(options, typeParameters, false).value;
      AppendAssoc(data, named, piece);
      ghost var acc := named + piece;
      var isNothing := c.classId == NothingClassId;
      var superTypes := RenderSuperTypes(isNothing, c.superTypes, out);
      ClassModifiersNotEmpty(options, State(), c);
      SuperTypesTextLocal(options, isNothing, c.superTypes, data, acc);
      if superTypes.Failure? {
        return Failure(superTypes.error);
      }
      out := superTypes.value;
      piece := SuperTypesText(options, isNothing, c.superTypes, acc).value;
      AppendAssoc(data, acc, piece);
      acc := acc + piece;
      var where := RenderWhereSuffix(typeParameters, out);
      if where.Failure? {
        return Failure(where.error);
      }
      out := where.value;
      piece := WhereSuffixText(options, typeParameters).value;
      AppendAssoc(data, acc, piece);
      return Success(out);
    }

    /** `visitRegularClass` */
    method VisitRegularClass(c: RegularClass, data: string) returns (r: Result<string, RenderFailure>)
      modifies this
      ensures r == AppendedTo(data, VisitText(options, old(State()), RegularClassNode(c)))
      ensures r.Success? ==> State() == old(State())
      decreases c, 2
    {
      RegularClassVisit(options, State(), c);
      var head := RenderClassHead(c, data);
      if head.Failure? {
        return Failure(head.error);
      }
      var out := head.value;
      if c.classKind == EnumEntry {
        return Success(out);
      }
      if options.renderContainingDeclarations {
        var block := UnderBlockDeclaration(RegularClassContainer(c.name), c.declarations, out);
        if block.Failure? {
          return Failure(block.error);
        }
        AppendAssoc(data, ClassHeadText(options, old(State()), c).value,
                    BlockText(options, old(State()), RegularClassContainer(c.name), c.declarations).value);
        out := block.value;
      }
      return Success(out);
    }

    // -------------------------------------------------------------------
    // Blocks and dispatch
    // -------------------------------------------------------------------

    /**
     * `underBlockDeclaration`: the members rendered inside `declaration`, four
     * spaces further in; the opening brace is taken back when they wrote nothing.
     */
    method UnderBlockDeclaration(declaration: Container, members: seq<Element>, data: string)
      returns (r: Result<string, RenderFailure>)
      modifies this
      ensures r == AppendedTo(data, BlockText(options, old(State()), declaration, members))
      ensures r.Success? ==> State() == old(State())
      decreases members, 1
    {
      var oldLength := |data|;
      var out := data + " {";
      var oldTabbedString := tabbedString;
      tabbedString := Spaces(|tabbedString| + 4);
      var unchangedLength := |out|;

      var oldContainingDeclaration := containingDeclaration;
      containingDeclaration := Some(declaration);
      assert State() == BlockContext(old(State()), declaration);
      var body := AcceptAll(members, out);
      if body.Failure? {
        return Failure(body.error);
      }
      containingDeclaration := oldContainingDeclaration;
      tabbedString := oldTabbedString;

      ghost var inner := MembersText(options, BlockContext(old(State()), declaration), members).value;
      assert BlockText(options, old(State()), declaration, members) == Success(Block(oldTabbedString, inner));
      out := body.value;
      assert out == data + " {" + inner;
      if unchangedLength != |out| {
        out := out + "\n" + tabbedString + "}";
        AppendFive(data, " {", inner, "\n", tabbedString, "}");
        assert out == data + Block(oldTabbedString, inner);
      } else {
        out := out[..oldLength];
        assert out == data;
        AppendEmpty(data);
        assert out == data + Block(oldTabbedString, inner);
      }
      assert State() == old(State());
      return Success(out);
    }

    /** Accepting each element in turn, in the same context. */
    method AcceptAll(es: seq<Element>, data: string) returns (r: Result<string, RenderFailure>)
      modifies this
      ensures r == AppendedTo(data, MembersText(options, old(State()), es))
      ensures r.Success? ==> State() == old(State())
      decreases es, 0
    {
      ghost var ctx := State();
      var out := data;
      for i := 0 to |es|
        invariant State() == ctx
        invariant MembersText(options, ctx, es[..i]).Success?
        invariant out == data + MembersText(options, ctx, es[..i]).value
      {
        var next := Accept(es[i], out);
        MembersStep(options, ctx, es, i);
        if next.Failure? {
          MembersFailurePersists(options, ctx, es, i + 1, |es|);
          assert es[..|es|] == es;
          return Failure(next.error);
        }
        AppendAssoc(data, MembersText(options, ctx, es[..i]).value, VisitText(options, ctx, es[i]).value);
        out := next.value;
      }
      assert es[..|es|] == es;
      return Success(out);
    }

    /** `accept(renderer, data)`: the visitor's dispatch on the kind of element. */
    method Accept(e: Element, data: string) returns (r: Result<string, RenderFailure>)
      modifies this
      ensures r == AppendedTo(data, VisitText(options, old(State()), e))
      ensures r.Success? ==> State() == old(State())
      decreases e, 2
    {
      match e
      case ValueParameterNode(p) =>
        r := RenderValueParameter(p, containingDeclaration == Some(ConstructorContainer), true, data);
      case PropertyNode(p) =>
        r := VisitProperty(p, data);
      case PropertyAccessorNode(a) =>
        r := VisitPropertyAccessor(a, data);
      case SimpleFunctionNode(f) =>
        r := VisitSimpleFunction(f, data);
      case ThisReceiverNode =>
        r := Success(data + "this");
      case AnonymousObjectNode(a) =>
        r := VisitAnonymousObject(a, data);
      case ConstructorNode(c) =>
        r := VisitConstructor(c, data);
      case TypeParameterNode(tp) =>
        r := RenderTypeParameter(tp, true, data);
      case RegularClassNode(c) =>
        r := VisitRegularClass(c, data);
      case TypeAliasNode(a) =>
        r := VisitTypeAlias(a, data);
      case OtherNode(children) =>
        r := AcceptAll(children, data);
    }
  }

  /**
   * `FirRenderer.render`: a fresh renderer inside `containingDeclaration`
   * accepts the declaration into an empty builder; the text is then trimmed.
   */
  method Render(declaration: Element, containingDeclaration: Option<Container>, options: RendererOptions)
    returns (r: Result<string, RenderFailure>)
    ensures r == RenderText(options, containingDeclaration, declaration)
  {
    var renderer := new FirRenderer(containingDeclaration, options);
    var text := renderer.Accept(declaration, "");
    if text.Failure? {
      return Failure(text.error);
    }
    EmptyAppend(VisitText(options, Context(containingDeclaration, ""), declaration).value);
    return Success(Trim(text.value, TrimmedChars));
  }
}
