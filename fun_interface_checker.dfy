/**
 * The declaration checker for `fun interface`s: an interface marked `fun`
 * must have exactly one abstract function, no abstract properties, and that
 * function may have no type parameters, may not be `suspend`, and may not
 * give its parameters default values.
 *
 * The checked class is given with its supertypes already resolved: a
 * supertype that is not a regular class is `None`.
 */
module FunInterfaceChecker {
  import opened Wrappers

  /** Where a diagnostic is reported (a declaration's source element). */
  datatype Source = Source(offset: nat)

  datatype DiagnosticKind =
    | WrongCountOfAbstractMembers
    | CannotHaveAbstractProperties
    | AbstractMethodWithTypeParameters
    | WithSuspendFunction
    | AbstractMethodWithDefaultValue

  /** A reported diagnostic: the factory and the source it was reported on. */
  datatype Diagnostic = Diagnostic(source: Source, kind: DiagnosticKind)

  datatype ValueParameterDecl = ValueParameterDecl(source: Source, hasDefaultValue: bool)

  /** A simple function, with the sources of its type parameters in order. */
  datatype FunctionDecl = FunctionDecl(
    source: Source,
    isAbstract: bool,
    isSuspend: bool,
    typeParameters: seq<Source>,
    valueParameters: seq<ValueParameterDecl>)

  /** A member declaration, as far as the checker tells them apart. */
  datatype MemberDecl =
    | FunctionMember(simpleFunction: FunctionDecl)
    | PropertyMember(source: Source, isAbstract: bool)
    | OtherMember

  /** A supertype that resolves to a regular class: its member declarations. */
  datatype SuperClass = SuperClass(declarations: seq<MemberDecl>)

  /** The checked class. */
  datatype CheckedClass = CheckedClass(
    source: Source,
    isInterface: bool,
    isFun: bool,
    superTypes: seq<Option<SuperClass>>,
    declarations: seq<MemberDecl>)

  predicate IsAbstractFunction(m: MemberDecl)
  {
    m.FunctionMember? && m.simpleFunction.isAbstract
  }

  // ---------------------------------------------------------------------
  // What the checker reports
  // ---------------------------------------------------------------------

  /** The first abstract function among the declarations. */
  function FirstAbstractFunction(ds: seq<MemberDecl>): Option<FunctionDecl>
  {
    if |ds| == 0 then None
    else if IsAbstractFunction(ds[0]) then Some(ds[0].simpleFunction)
    else FirstAbstractFunction(ds[1..])
  }

  /** The first abstract function of the first resolved supertype that has one. */
  function InheritedCandidate(superTypes: seq<Option<SuperClass>>): Option<FunctionDecl>
  {
    if |superTypes| == 0 then None
    else if superTypes[0].Some? && FirstAbstractFunction(superTypes[0].value.declarations).Some? then
      FirstAbstractFunction(superTypes[0].value.declarations)
    else InheritedCandidate(superTypes[1..])
  }

  /** The candidate once the own declarations are scanned: the one already found, else the first own one. */
  function CandidateAfter(candidate: Option<FunctionDecl>, ds: seq<MemberDecl>): Option<FunctionDecl>
  {
    if candidate.Some? then candidate else FirstAbstractFunction(ds)
  }

  /**
   * What the scan of the own declarations reports, starting with `candidate`:
   * an abstract function when a candidate is already set, and every abstract
   * property.
   */
  function MemberDiagnostics(classSource: Source, candidate: Option<FunctionDecl>, ds: seq<MemberDecl>)
    : seq<Diagnostic>
    decreases |ds|
  {
    if |ds| == 0 then []
    else
      match ds[0]
      case FunctionMember(f) =>
        if !f.isAbstract then MemberDiagnostics(classSource, candidate, ds[1..])
        else if candidate.None? then MemberDiagnostics(classSource, Some(f), ds[1..])
        else [Diagnostic(classSource, WrongCountOfAbstractMembers)] + MemberDiagnostics(classSource, candidate, ds[1..])
      case PropertyMember(source, isAbstract) =>
        (if isAbstract then [Diagnostic(source, CannotHaveAbstractProperties)] else [])
        + MemberDiagnostics(classSource, candidate, ds[1..])
      case OtherMember =>
        MemberDiagnostics(classSource, candidate, ds[1..])
  }

  /** Type parameters are reported at the first of them; only a function without any is reported for `suspend`. */
  function TypeParameterOrSuspendDiagnostics(f: FunctionDecl): seq<Diagnostic>
  {
    if |f.typeParameters| > 0 then [Diagnostic(f.typeParameters[0], AbstractMethodWithTypeParameters)]
    else if f.isSuspend then [Diagnostic(f.source, WithSuspendFunction)]
    else []
  }

  /** One diagnostic per parameter with a default value, in parameter order. */
  function DefaultValueDiagnostics(ps: seq<ValueParameterDecl>): seq<Diagnostic>
  {
    if |ps| == 0 then []
    else
      DefaultValueDiagnostics(ps[..|ps| - 1])
      + (if ps[|ps| - 1].hasDefaultValue then [Diagnostic(ps[|ps| - 1].source, AbstractMethodWithDefaultValue)] else [])
  }

  /** Everything the checker reports for `declaration`, in order. */
  function Diagnostics(declaration: CheckedClass): seq<Diagnostic>
  {
    if !(declaration.isInterface && declaration.isFun) then []
    else
      var inherited := InheritedCandidate(declaration.superTypes);
      var members := MemberDiagnostics(declaration.source, inherited, declaration.declarations);
      match CandidateAfter(inherited, declaration.declarations)
      case None => members + [Diagnostic(declaration.source, WrongCountOfAbstractMembers)]
      case Some(f) => members + TypeParameterOrSuspendDiagnostics(f) + DefaultValueDiagnostics(f.valueParameters)
  }

  // ---------------------------------------------------------------------
  // The checker
  // ---------------------------------------------------------------------

  /** `FirFunInterfaceDeclarationChecker.check`: the diagnostics it reports, in the order it reports them. */
  method Check(declaration: CheckedClass) returns (reported: seq<Diagnostic>)
    ensures reported == Diagnostics(declaration)
  {
    reported := [];
    if !(declaration.isInterface && declaration.isFun) {
      return;
    }

    var abstractFunction := FindInheritedAbstractFunction(declaration.superTypes);
    ghost var inherited := abstractFunction;

    var declarations := declaration.declarations;
    for k := 0 to |declarations|
      invariant reported + MemberDiagnostics(declaration.source, abstractFunction, declarations[k..])
        == MemberDiagnostics(declaration.source, inherited, declarations)
      invariant CandidateAfter(abstractFunction, declarations[k..]) == CandidateAfter(inherited, declarations)
    {
      ghost var rest := MemberDiagnostics(declaration.source, abstractFunction, declarations[k + 1..]);
      assert declarations[k..][1..] == declarations[k + 1..];
      match declarations[k] {
        case FunctionMember(f) =>
          if f.isAbstract {
            if abstractFunction.None? {
              abstractFunction := Some(f);
            } else {
              var d := Diagnostic(declaration.source, WrongCountOfAbstractMembers);
              assert reported + ([d] + rest) == reported + [d] + rest;
              reported := reported + [d];
            }
          }
        case PropertyMember(source, isAbstract) =>
          if isAbstract {
            var d := Diagnostic(source, CannotHaveAbstractProperties);
            assert reported + ([d] + rest) == reported + [d] + rest;
            reported := reported + [d];
          } else {
            assert [] + rest == rest;
          }
        case OtherMember =>
      }
    }
    assert declarations[|declarations|..] == [];
    assert reported + [] == reported;

    if abstractFunction.None? {
      reported := reported + [Diagnostic(declaration.source, WrongCountOfAbstractMembers)];
      return;
    }

    var candidate := abstractFunction.value;
    ghost var members := reported;
    if |candidate.typeParameters| > 0 {
      reported := reported + [Diagnostic(candidate.typeParameters[0], AbstractMethodWithTypeParameters)];
    } else if candidate.isSuspend {
      reported := reported + [Diagnostic(candidate.source, WithSuspendFunction)];
    }
    assert reported == members + TypeParameterOrSuspendDiagnostics(candidate);

    ghost var beforeDefaults := reported;
    var parameters := candidate.valueParameters;
    for k := 0 to |parameters|
      invariant reported == beforeDefaults + DefaultValueDiagnostics(parameters[..k])
    {
      assert parameters[..k + 1][..k] == parameters[..k];
      if parameters[k].hasDefaultValue {
        reported := reported + [Diagnostic(parameters[k].source, AbstractMethodWithDefaultValue)];
      } else {
        assert reported + [] == reported;
      }
    }
    assert parameters[..|parameters|] == parameters;
  }

  /** The first loop of `check`: the supertypes in order, stopping at the first abstract function found. */
  method FindInheritedAbstractFunction(superTypes: seq<Option<SuperClass>>) returns (abstractFunction: Option<FunctionDecl>)
    ensures abstractFunction == InheritedCandidate(superTypes)
  {
    abstractFunction := None;
    var i := 0;
    while i < |superTypes|
      invariant 0 <= i <= |superTypes|
      invariant abstractFunction.None?
      invariant InheritedCandidate(superTypes[i..]) == InheritedCandidate(superTypes)
    {
      assert superTypes[i..][1..] == superTypes[i + 1..];
      if superTypes[i].None? {
        // not a regular class: `continue`
        i := i + 1;
        continue;
      }
      var superClass := superTypes[i].value;
      abstractFunction := FindAbstractFunction(superClass.declarations);
      if abstractFunction.Some? {
        return;
      }
      i := i + 1;
    }
  }

  /** The inner loop of `check`: the first abstract simple function of a supertype. */
  method FindAbstractFunction(ds: seq<MemberDecl>) returns (abstractFunction: Option<FunctionDecl>)
    ensures abstractFunction == FirstAbstractFunction(ds)
  {
    for j := 0 to |ds|
      invariant FirstAbstractFunction(ds[j..]) == FirstAbstractFunction(ds)
    {
      assert ds[j..][1..] == ds[j + 1..];
      var innerDeclaration := ds[j];
      if innerDeclaration.FunctionMember? && innerDeclaration.simpleFunction.isAbstract {
        return Some(innerDeclaration.simpleFunction);
      }
    }
    assert ds[|ds|..] == [];
    return None;
  }
}
