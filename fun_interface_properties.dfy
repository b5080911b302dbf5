/**
 * What the `fun interface` checker promises, stated over `Diagnostics`:
 * which function is the candidate, how many times each diagnostic is
 * reported and where, and which rules exclude each other.
 */
module FunInterfaceProperties {
  import opened Wrappers
  import opened FunInterfaceChecker

  /** The diagnostics of one kind, in the order they were reported. */
  function OfKind(ds: seq<Diagnostic>, kind: DiagnosticKind): (r: seq<Diagnostic>)
    ensures |r| <= |ds|
    ensures forall i :: 0 <= i < |r| ==> r[i].kind == kind
  {
    if |ds| == 0 then []
    else (if ds[0].kind == kind then [ds[0]] else []) + OfKind(ds[1..], kind)
  }

  lemma {:induction false} OfKindAppend(xs: seq<Diagnostic>, ys: seq<Diagnostic>, kind: DiagnosticKind)
    ensures OfKind(xs + ys, kind) == OfKind(xs, kind) + OfKind(ys, kind)
  {
    if |xs| == 0 {
      assert xs + ys == ys;
    } else {
      var head := if xs[0].kind == kind then [xs[0]] else [];
      var a, b := OfKind(xs[1..], kind), OfKind(ys, kind);
      var tail := xs[1..] + ys;
      OfKindAppend(xs[1..], ys, kind);
      Uncons(xs, ys);
      OfKindCons(xs[0], tail, kind);
      Uncons(xs, []);
      OfKindCons(xs[0], xs[1..], kind);
      Regroup(head, a, b);
    }
  }

  lemma Uncons<X>(xs: seq<X>, ys: seq<X>)
    requires |xs| > 0
    ensures xs + ys == [xs[0]] + (xs[1..] + ys)
    ensures xs == [xs[0]] + xs[1..]
  {
  }

  lemma Regroup<X>(xs: seq<X>, ys: seq<X>, zs: seq<X>)
    ensures xs + (ys + zs) == (xs + ys) + zs
  {
  }

  lemma OfKindCons(x: Diagnostic, ys: seq<Diagnostic>, kind: DiagnosticKind)
    ensures OfKind([x] + ys, kind) == (if x.kind == kind then [x] else []) + OfKind(ys, kind)
  {
    assert ([x] + ys)[1..] == ys;
  }

  /** How many of the declarations are abstract functions. */
  function AbstractFunctionCount(ds: seq<MemberDecl>): nat
  {
    if |ds| == 0 then 0 else (if IsAbstractFunction(ds[0]) then 1 else 0) + AbstractFunctionCount(ds[1..])
  }

  /** One `CANNOT_HAVE_ABSTRACT_PROPERTIES` per abstract property, at the property, in declaration order. */
  function AbstractPropertyDiagnostics(ds: seq<MemberDecl>): seq<Diagnostic>
  {
    if |ds| == 0 then []
    else
      (if ds[0].PropertyMember? && ds[0].isAbstract then [Diagnostic(ds[0].source, CannotHaveAbstractProperties)] else [])
      + AbstractPropertyDiagnostics(ds[1..])
  }

  // ---------------------------------------------------------------------
  // The candidate
  // ---------------------------------------------------------------------

  /** Only an interface marked `fun` is checked at all. */
  lemma OnlyFunInterfacesChecked(declaration: CheckedClass)
    requires !(declaration.isInterface && declaration.isFun)
    ensures Diagnostics(declaration) == []
  {
  }

  /** `FirstAbstractFunction` finds the abstract function that no other abstract function precedes. */
  lemma {:induction false} FirstAbstractFunctionIsFirst(ds: seq<MemberDecl>)
    ensures FirstAbstractFunction(ds).None? <==> forall i :: 0 <= i < |ds| ==> !IsAbstractFunction(ds[i])
    ensures FirstAbstractFunction(ds).Some? ==>
      exists i :: 0 <= i < |ds| && IsAbstractFunction(ds[i]) && ds[i].simpleFunction == FirstAbstractFunction(ds).value
        && forall j :: 0 <= j < i ==> !IsAbstractFunction(ds[j])
  {
    if |ds| > 0 {
      FirstAbstractFunctionIsFirst(ds[1..]);
      assert forall i :: 1 <= i < |ds| ==> ds[i] == ds[1..][i - 1];
      if !IsAbstractFunction(ds[0]) && FirstAbstractFunction(ds).Some? {
        var i :| 0 <= i < |ds[1..]| && IsAbstractFunction(ds[1..][i])
          && ds[1..][i].simpleFunction == FirstAbstractFunction(ds[1..]).value
          && forall j :: 0 <= j < i ==> !IsAbstractFunction(ds[1..][j]);
        assert IsAbstractFunction(ds[i + 1]);
      }
    }
  }

  /** Whether a supertype offers an abstract function: it resolves, and one of its declarations is one. */
  predicate OffersAbstractFunction(superType: Option<SuperClass>)
  {
    superType.Some? && FirstAbstractFunction(superType.value.declarations).Some?
  }

  /**
   * The inherited candidate comes from the first supertype that offers an
   * abstract function; unresolved supertypes and supertypes without one are
   * passed over.
   */
  lemma {:induction false} InheritedCandidateIsFirst(superTypes: seq<Option<SuperClass>>)
    ensures InheritedCandidate(superTypes).None? <==>
      forall i :: 0 <= i < |superTypes| ==> !OffersAbstractFunction(superTypes[i])
    ensures InheritedCandidate(superTypes).Some? ==>
      exists i :: 0 <= i < |superTypes| && OffersAbstractFunction(superTypes[i])
        && InheritedCandidate(superTypes) == FirstAbstractFunction(superTypes[i].value.declarations)
        && forall j :: 0 <= j < i ==> !OffersAbstractFunction(superTypes[j])
  {
    if |superTypes| > 0 {
      var rest := superTypes[1..];
      InheritedCandidateIsFirst(rest);
      assert forall i :: 1 <= i < |superTypes| ==> superTypes[i] == rest[i - 1];
      if !OffersAbstractFunction(superTypes[0]) && InheritedCandidate(superTypes).Some? {
        var i :| 0 <= i < |rest| && OffersAbstractFunction(rest[i])
          && InheritedCandidate(rest) == FirstAbstractFunction(rest[i].value.declarations)
          && forall j :: 0 <= j < i ==> !OffersAbstractFunction(rest[j]);
        assert OffersAbstractFunction(superTypes[i + 1]);
      }
    }
  }

  // ---------------------------------------------------------------------
  // The scan of the own declarations
  // ---------------------------------------------------------------------

  /**
   * Every own abstract function is reported as one too many, except the
   * first one when nothing was inherited; all those reports are at the
   * interface itself.
   */
  lemma {:induction false} WrongCountInScan(classSource: Source, candidate: Option<FunctionDecl>, ds: seq<MemberDecl>)
    ensures var wrong := OfKind(MemberDiagnostics(classSource, candidate, ds), WrongCountOfAbstractMembers);
      && |wrong| == AbstractFunctionCount(ds) - (if candidate.None? && AbstractFunctionCount(ds) > 0 then 1 else 0)
      && forall i :: 0 <= i < |wrong| ==> wrong[i] == Diagnostic(classSource, WrongCountOfAbstractMembers)
    decreases |ds|
  {
    if |ds| > 0 {
      var rest := ds[1..];
      match ds[0]
      case FunctionMember(f) =>
        if f.isAbstract && candidate.None? {
          WrongCountInScan(classSource, Some(f), rest);
        } else if f.isAbstract {
          WrongCountInScan(classSource, candidate, rest);
          OfKindAppend([Diagnostic(classSource, WrongCountOfAbstractMembers)],
                       MemberDiagnostics(classSource, candidate, rest), WrongCountOfAbstractMembers);
        } else {
          WrongCountInScan(classSource, candidate, rest);
        }
      case PropertyMember(source, isAbstract) =>
        WrongCountInScan(classSource, candidate, rest);
        var own := if isAbstract then [Diagnostic(source, CannotHaveAbstractProperties)] else [];
        OfKindAppend(own, MemberDiagnostics(classSource, candidate, rest), WrongCountOfAbstractMembers);
      case OtherMember =>
        WrongCountInScan(classSource, candidate, rest);
    }
  }

  /** Abstract properties are reported the same way whatever the candidate is. */
  lemma {:induction false} PropertiesReportedRegardless(classSource: Source, candidate: Option<FunctionDecl>,
                                                       ds: seq<MemberDecl>)
    ensures OfKind(MemberDiagnostics(classSource, candidate, ds), CannotHaveAbstractProperties)
      == AbstractPropertyDiagnostics(ds)
    decreases |ds|
  {
    if |ds| > 0 {
      var rest := ds[1..];
      match ds[0]
      case FunctionMember(f) =>
        if f.isAbstract && candidate.None? {
          PropertiesReportedRegardless(classSource, Some(f), rest);
        } else if f.isAbstract {
          PropertiesReportedRegardless(classSource, candidate, rest);
          OfKindAppend([Diagnostic(classSource, WrongCountOfAbstractMembers)],
                       MemberDiagnostics(classSource, candidate, rest), CannotHaveAbstractProperties);
        } else {
          PropertiesReportedRegardless(classSource, candidate, rest);
        }
      case PropertyMember(source, isAbstract) =>
        PropertiesReportedRegardless(classSource, candidate, rest);
        var own := if isAbstract then [Diagnostic(source, CannotHaveAbstractProperties)] else [];
        OfKindAppend(own, MemberDiagnostics(classSource, candidate, rest), CannotHaveAbstractProperties);
      case OtherMember =>
        PropertiesReportedRegardless(classSource, candidate, rest);
    }
  }

  /** Without abstract functions the scan reports exactly the abstract properties. */
  lemma {:induction false} ScanWithoutFunctions(classSource: Source, candidate: Option<FunctionDecl>, ds: seq<MemberDecl>)
    requires AbstractFunctionCount(ds) == 0
    ensures MemberDiagnostics(classSource, candidate, ds) == AbstractPropertyDiagnostics(ds)
    decreases |ds|
  {
    if |ds| > 0 {
      ScanWithoutFunctions(classSource, candidate, ds[1..]);
    }
  }

  lemma {:induction false} NoAbstractFunctionCounted(ds: seq<MemberDecl>)
    requires FirstAbstractFunction(ds).None?
    ensures AbstractFunctionCount(ds) == 0
  {
    if |ds| > 0 {
      NoAbstractFunctionCounted(ds[1..]);
    }
  }

  // ---------------------------------------------------------------------
  // The rules after the scan
  // ---------------------------------------------------------------------

  /**
   * With no candidate at all, the interface gets exactly one
   * `WRONG_COUNT_OF_ABSTRACT_MEMBERS`, after the property reports, and no
   * rule about the candidate's signature runs.
   */
  lemma NoCandidateReportsOnce(declaration: CheckedClass)
    requires declaration.isInterface && declaration.isFun
    requires CandidateAfter(InheritedCandidate(declaration.superTypes), declaration.declarations).None?
    ensures Diagnostics(declaration) ==
      AbstractPropertyDiagnostics(declaration.declarations)
      + [Diagnostic(declaration.source, WrongCountOfAbstractMembers)]
  {
    NoAbstractFunctionCounted(declaration.declarations);
    ScanWithoutFunctions(declaration.source, InheritedCandidate(declaration.superTypes), declaration.declarations);
  }

  /**
   * With an inherited candidate, every own abstract function is one too
   * many: each is reported at the interface.
   */
  lemma InheritedCandidateMakesOwnFunctionsWrong(declaration: CheckedClass)
    requires declaration.isInterface && declaration.isFun
    requires InheritedCandidate(declaration.superTypes).Some?
    ensures |OfKind(Diagnostics(declaration), WrongCountOfAbstractMembers)|
      == AbstractFunctionCount(declaration.declarations)
  {
    var inherited := InheritedCandidate(declaration.superTypes);
    var members := MemberDiagnostics(declaration.source, inherited, declaration.declarations);
    var f := inherited.value;
    WrongCountInScan(declaration.source, inherited, declaration.declarations);
    OfKindAppend(members, TypeParameterOrSuspendDiagnostics(f), WrongCountOfAbstractMembers);
    OfKindAppend(members + TypeParameterOrSuspendDiagnostics(f), DefaultValueDiagnostics(f.valueParameters),
                 WrongCountOfAbstractMembers);
    DefaultValuesOnly(f.valueParameters, WrongCountOfAbstractMembers);
  }

  /** Only `ABSTRACT_METHOD_WITH_DEFAULT_VALUE` comes from the parameters, one per parameter with a default value. */
  lemma {:induction false} DefaultValuesOnly(ps: seq<ValueParameterDecl>, kind: DiagnosticKind)
    ensures kind != AbstractMethodWithDefaultValue ==> OfKind(DefaultValueDiagnostics(ps), kind) == []
    ensures kind == AbstractMethodWithDefaultValue ==> OfKind(DefaultValueDiagnostics(ps), kind) == DefaultValueDiagnostics(ps)
  {
    if |ps| > 0 {
      var last := ps[|ps| - 1];
      DefaultValuesOnly(ps[..|ps| - 1], kind);
      OfKindAppend(DefaultValueDiagnostics(ps[..|ps| - 1]),
                   if last.hasDefaultValue then [Diagnostic(last.source, AbstractMethodWithDefaultValue)] else [], kind);
    }
  }

  /** The parameters with a default value, in order. */
  lemma {:induction false} DefaultValueDiagnosticsPointwise(ps: seq<ValueParameterDecl>)
    ensures forall d :: d in DefaultValueDiagnostics(ps) <==>
      d.kind == AbstractMethodWithDefaultValue && exists i :: 0 <= i < |ps| && ps[i].hasDefaultValue && ps[i].source == d.source
  {
    if |ps| > 0 {
      var init := ps[..|ps| - 1];
      DefaultValueDiagnosticsPointwise(init);
      assert forall i :: 0 <= i < |init| ==> init[i] == ps[i];
    }
  }

  /**
   * Type parameters and `suspend` are never both reported: the type
   * parameters win, at the first of them; otherwise a `suspend` function is
   * reported at its own source. The default values are reported whichever
   * of the two was.
   */
  lemma SignatureRules(declaration: CheckedClass)
    requires declaration.isInterface && declaration.isFun
    requires CandidateAfter(InheritedCandidate(declaration.superTypes), declaration.declarations).Some?
    ensures var f := CandidateAfter(InheritedCandidate(declaration.superTypes), declaration.declarations).value;
      var diagnostics := Diagnostics(declaration);
      && (|f.typeParameters| == 0 ==>
            OfKind(diagnostics, AbstractMethodWithTypeParameters) == []
            && OfKind(diagnostics, WithSuspendFunction)
                 == (if f.isSuspend then [Diagnostic(f.source, WithSuspendFunction)] else []))
      && (|f.typeParameters| > 0 ==>
            OfKind(diagnostics, AbstractMethodWithTypeParameters)
              == [Diagnostic(f.typeParameters[0], AbstractMethodWithTypeParameters)]
            && OfKind(diagnostics, WithSuspendFunction) == [])
      && OfKind(diagnostics, AbstractMethodWithDefaultValue) == DefaultValueDiagnostics(f.valueParameters)
  {
    var inherited := InheritedCandidate(declaration.superTypes);
    var f := CandidateAfter(inherited, declaration.declarations).value;
    var members := MemberDiagnostics(declaration.source, inherited, declaration.declarations);
    var signature := TypeParameterOrSuspendDiagnostics(f);
    var defaults := DefaultValueDiagnostics(f.valueParameters);
    forall kind | kind != WrongCountOfAbstractMembers && kind != CannotHaveAbstractProperties
      ensures OfKind(members, kind) == []
    {
      ScanReportsOnlyScanKinds(declaration.source, inherited, declaration.declarations, kind);
    }
    forall kind
      ensures OfKind(Diagnostics(declaration), kind) == OfKind(members, kind) + OfKind(signature, kind) + OfKind(defaults, kind)
    {
      OfKindAppend(members, signature, kind);
      OfKindAppend(members + signature, defaults, kind);
      DefaultValuesOnly(f.valueParameters, kind);
    }
    DefaultValuesOnly(f.valueParameters, AbstractMethodWithTypeParameters);
    DefaultValuesOnly(f.valueParameters, WithSuspendFunction);
    DefaultValuesOnly(f.valueParameters, AbstractMethodWithDefaultValue);
  }

  /** The scan reports nothing but wrong counts and abstract properties. */
  lemma {:induction false} ScanReportsOnlyScanKinds(classSource: Source, candidate: Option<FunctionDecl>,
                                                   ds: seq<MemberDecl>, kind: DiagnosticKind)
    requires kind != WrongCountOfAbstractMembers && kind != CannotHaveAbstractProperties
    ensures OfKind(MemberDiagnostics(classSource, candidate, ds), kind) == []
    decreases |ds|
  {
    if |ds| > 0 {
      var rest := ds[1..];
      match ds[0]
      case FunctionMember(f) =>
        if f.isAbstract && candidate.None? {
          ScanReportsOnlyScanKinds(classSource, Some(f), rest, kind);
        } else if f.isAbstract {
          ScanReportsOnlyScanKinds(classSource, candidate, rest, kind);
          OfKindAppend([Diagnostic(classSource, WrongCountOfAbstractMembers)],
                       MemberDiagnostics(classSource, candidate, rest), kind);
        } else {
          ScanReportsOnlyScanKinds(classSource, candidate, rest, kind);
        }
      case PropertyMember(source, isAbstract) =>
        ScanReportsOnlyScanKinds(classSource, candidate, rest, kind);
        var own := if isAbstract then [Diagnostic(source, CannotHaveAbstractProperties)] else [];
        OfKindAppend(own, MemberDiagnostics(classSource, candidate, rest), kind);
      case OtherMember =>
        ScanReportsOnlyScanKinds(classSource, candidate, rest, kind);
    }
  }
}
