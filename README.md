# Kotlin FIR renderers, the `fun interface` checker and the commonizer's `TargetDependent`

This project models four pieces of the Kotlin compiler and IDE front end and proves
properties about them.

- **The cone type renderer** (`ConeTypeRenderer`). It turns a resolved FIR type into the
  text the IDE shows. The cases are:
  - error and unknown types render as `???`;
  - type parameters render as their name;
  - intersection types render as `(A&B)`, joined by `&` with no spaces;
  - flexible types render as `(L..U)`, folded to `L!`, `(Mutable)…` or `Array<(out) …>`;
  - class-like types walk their outer-class chain;
  - built-in function types use `A.(B, C) -> R` sugar.

  The model follows the code where the code can throw. `typeArguments.slice(range)`
  fails when the class chain's own type parameters outnumber the type's arguments. The
  model represents that as `None`.
- **The FIR declaration renderer** (`DeclarationRenderer`, specified by `DeclarationText`).
  It is a visitor that appends the text of a declaration to a `StringBuilder`. Its two
  mutable fields, `containingDeclaration` and `tabbedString`, are fields of the class
  `FirRenderer` and change through `underBlockDeclaration`. The builder is threaded
  through the visit as a value: each method takes the text so far and returns it
  extended. Its `require`/`check` failures become `Failure` values, and so does a type
  the type renderer cannot render. `render` renders with no indentation and trims
  spaces, newlines and tabs from both ends.
- **`FirFunInterfaceDeclarationChecker`** (`FunInterfaceChecker`). For an interface
  declared `fun` it reports:
  - the wrong number of abstract members;
  - abstract properties;
  - type parameters or `suspend` on the single abstract function;
  - parameters with default values.

  It reports them on the same sources and in the same order as the code.
- **The commonizer's `TargetDependent`** (`Commonizer`). This is a per-target container.
  - Its map-based and factory-based variants are one datatype, viewed as values.
  - The memoizing `FactoryBasedTargetDependent` is a class whose `Get` fills an
    `array` of slots, and it releases its factory once every slot is filled.
  - `Get` on a missing target, and the `NullPointerException` that `filterNonNull` throws for a null value, are `Failure` values.

Each method is proved against a specification function. The properties of those
functions are proved as lemmas in the `…Properties` modules.

## Model

| member | source | states |
|---|---|---|
| ConeTypeRenderer.RenderType | idea/idea-frontend-fir/src/org/jetbrains/kotlin/idea/frontend/api/fir/renderer/ConeTypeRenderer.kt:25-60 | renders the type as `TypeText` (error/unknown, class-like, type parameter, intersection, flexible, nullable mark), prefixed by the annotation text; fails exactly when the type text fails |
| ConeTypeRenderer.RenderTypeConstructorAndArguments | idea/idea-frontend-fir/src/org/jetbrains/kotlin/idea/frontend/api/fir/renderer/ConeTypeRenderer.kt:145-195 | appends the classifier text (package prefix, `???` for an unresolved class, the dotted chain of outer classes each with its slice of the arguments); fails exactly when a slice runs past the arguments or an argument fails |
| ConeTypeRenderer.RenderFunctionType | idea/idea-frontend-fir/src/org/jetbrains/kotlin/idea/frontend/api/fir/renderer/ConeTypeRenderer.kt:247-331 | appends `FunctionTypeText`: suspend, optional parentheses, receiver, parameter list, `-> R`, and a `?` for a nullable type |
| ConeTypeRenderer.AppendParameterTypes | idea/idea-frontend-fir/src/org/jetbrains/kotlin/idea/frontend/api/fir/renderer/ConeTypeRenderer.kt:292-317 | the parameter loop appends the listed parameter types joined by `, `, skipping the receiver slot; fails when one fails |
| ConeTypeRenderer.ReplacePrefixes | idea/idea-frontend-fir/src/org/jetbrains/kotlin/idea/frontend/api/fir/renderer/ConeTypeRenderer.kt:117-135 | folds iff both prefixes match and the remainders are equal or differ only in nullability; the result is the folded prefix, the lower remainder, and `!` when they differ |
| ConeTypeProperties.UnknownKindsRenderAsUnknown | idea/idea-frontend-fir/src/org/jetbrains/kotlin/idea/frontend/api/fir/renderer/ConeTypeRenderer.kt:32-35 | error types and types of no other known kind render as `???` plus the nullable mark |
| ConeTypeProperties.TypeParameterRendersAsName | idea/idea-frontend-fir/src/org/jetbrains/kotlin/idea/frontend/api/fir/renderer/ConeTypeRenderer.kt:44-46 | a type parameter renders as its name, with `?` when nullable |
| ConeTypeProperties.UnresolvedClassRendersAsUnknown | idea/idea-frontend-fir/src/org/jetbrains/kotlin/idea/frontend/api/fir/renderer/ConeTypeRenderer.kt:158-168 | a class type whose class cannot be found renders as `???` |
| ConeTypeProperties.RenderedTypesPointwise | idea/idea-frontend-fir/src/org/jetbrains/kotlin/idea/frontend/api/fir/renderer/ConeTypeRenderer.kt:47-51 | a list of types renders iff each one does, and then element i is the text of type i |
| ConeTypeProperties.IntersectionRendering | idea/idea-frontend-fir/src/org/jetbrains/kotlin/idea/frontend/api/fir/renderer/ConeTypeRenderer.kt:47-51 | an intersection renders as `(` + the parts joined by `&` + `)`, plus `?` when nullable |
| ConeTypeProperties.NullableTextEndsWithMark | idea/idea-frontend-fir/src/org/jetbrains/kotlin/idea/frontend/api/fir/renderer/ConeTypeRenderer.kt:58-60 | the text of every nullable type ends with `?` |
| ConeTypeProperties.NullableMarkAppended | idea/idea-frontend-fir/src/org/jetbrains/kotlin/idea/frontend/api/fir/renderer/ConeTypeRenderer.kt:25-60 | for a type without function sugar, the nullable variant renders iff the non-null one does, as that text plus `?` |
| ConeTypeProperties.FunctionTypeTextWrapsSignature | idea/idea-frontend-fir/src/org/jetbrains/kotlin/idea/frontend/api/fir/renderer/ConeTypeRenderer.kt:247-331 | a function type is its signature inside the optional parentheses, followed by its nullable mark |
| ConeTypeProperties.SignatureTextIgnoresNullability | idea/idea-frontend-fir/src/org/jetbrains/kotlin/idea/frontend/api/fir/renderer/ConeTypeRenderer.kt:247-331 | the signature of a function type does not depend on its nullability |
| ConeTypeProperties.NullableFunctionTypeMarkedTwice | idea/idea-frontend-fir/src/org/jetbrains/kotlin/idea/frontend/api/fir/renderer/ConeTypeRenderer.kt:58-60 | a nullable function type renders as `(` + the non-null text + `)??`: `renderFunctionType` writes one `?` and `renderType` another |
| ConeTypeProperties.BodyTextIgnoresNullability | idea/idea-frontend-fir/src/org/jetbrains/kotlin/idea/frontend/api/fir/renderer/ConeTypeRenderer.kt:31-56 | the text before the nullable mark does not depend on the nullability flag |
| ConeTypeProperties.ProjectionRendering | idea/idea-frontend-fir/src/org/jetbrains/kotlin/idea/frontend/api/fir/renderer/ConeTypeRenderer.kt:231-239 | a projection renders as `*`, `in T`, `out T` or `T`, and fails iff its type fails |
| ConeTypeProperties.ProjectionTextsPointwise | idea/idea-frontend-fir/src/org/jetbrains/kotlin/idea/frontend/api/fir/renderer/ConeTypeRenderer.kt:241-245 | a list of projections renders iff each one does, element by element |
| ConeTypeProperties.TypeArgumentsRendering | idea/idea-frontend-fir/src/org/jetbrains/kotlin/idea/frontend/api/fir/renderer/ConeTypeRenderer.kt:138-143 | no arguments render as nothing, otherwise `<` + the projections joined by `, ` + `>` |
| ConeTypeProperties.TypeArgumentsAsOneSlice | idea/idea-frontend-fir/src/org/jetbrains/kotlin/idea/frontend/api/fir/renderer/ConeTypeRenderer.kt:147-153 | the local slice renderer over the whole range agrees with `renderTypeArguments` |
| ConeTypeProperties.ChainFailsWhenArgumentsRunOut | idea/idea-frontend-fir/src/org/jetbrains/kotlin/idea/frontend/api/fir/renderer/ConeTypeRenderer.kt:149 | once the chain's own type parameters exceed the arguments, the slice throws and the chain fails |
| ConeTypeProperties.ChainSucceedsWhenArgumentsSuffice | idea/idea-frontend-fir/src/org/jetbrains/kotlin/idea/frontend/api/fir/renderer/ConeTypeRenderer.kt:186-195 | with enough arguments, each of which renders, the chain renders |
| ConeTypeProperties.ClassifierRendersIffArgumentsSuffice | idea/idea-frontend-fir/src/org/jetbrains/kotlin/idea/frontend/api/fir/renderer/ConeTypeRenderer.kt:145-195 | a resolved class type with renderable arguments renders iff its chain consumes no more arguments than it has |
| ConeTypeProperties.RegularNamesCount | idea/idea-frontend-fir/src/org/jetbrains/kotlin/idea/frontend/api/fir/renderer/ConeTypeRenderer.kt:186-195 | the chain names one segment per regular-class entry |
| ConeTypeProperties.ChainOfNames | idea/idea-frontend-fir/src/org/jetbrains/kotlin/idea/frontend/api/fir/renderer/ConeTypeRenderer.kt:178-195 | without own type parameters the chain is the regular class names joined by `.` (`addPointIfNeeded`) |
| ConeTypeProperties.StarArgumentDisablesSugar | idea/idea-frontend-fir/src/org/jetbrains/kotlin/idea/frontend/api/fir/renderer/ConeTypeRenderer.kt:66-68 | a star projection among the arguments turns the function-type sugar off |
| ConeTypeProperties.ParameterTextsAreListedTypes | idea/idea-frontend-fir/src/org/jetbrains/kotlin/idea/frontend/api/fir/renderer/ConeTypeRenderer.kt:292-317 | the parameter loop renders exactly the listed parameter types, in order |
| ConeTypeProperties.ReceiverSlotNotListed | idea/idea-frontend-fir/src/org/jetbrains/kotlin/idea/frontend/api/fir/renderer/ConeTypeRenderer.kt:297-299 | with a receiver, slot 0 is not listed among the parameters |
| ConeTypeProperties.FlexibleNullabilityFold | idea/idea-frontend-fir/src/org/jetbrains/kotlin/idea/frontend/api/fir/renderer/ConeTypeRenderer.kt:73-79 | bounds that differ only in `?` render as `L!`, parenthesised when the upper bound starts with `(` |
| ConeTypeProperties.NullabilityTestIgnoresNestedMarks | idea/idea-frontend-fir/src/org/jetbrains/kotlin/idea/frontend/api/fir/renderer/ConeTypeRenderer.kt:70-71 | the nullability test removes every `?`, so a lower bound equal to the upper bound without any `?` folds to `!` |
| ConeTypeProperties.FlexibleEqualBounds | idea/idea-frontend-fir/src/org/jetbrains/kotlin/idea/frontend/api/fir/renderer/ConeTypeRenderer.kt:73-79 | equal bounds without `?` render as `L!` |
| ConeTypeProperties.FlexibleNullableUpperBound | idea/idea-frontend-fir/src/org/jetbrains/kotlin/idea/frontend/api/fir/renderer/ConeTypeRenderer.kt:73-79 | `L` / `L?` renders as `L!` |
| ConeTypeProperties.FlexibleRangeIffNoFold | idea/idea-frontend-fir/src/org/jetbrains/kotlin/idea/frontend/api/fir/renderer/ConeTypeRenderer.kt:73-115 | the `(L..U)` form is produced iff no nullability fold and none of the three prefix folds applies |
| ConeTypeProperties.LongerLowerIsNotNullabilityOnly | idea/idea-frontend-fir/src/org/jetbrains/kotlin/idea/frontend/api/fir/renderer/ConeTypeRenderer.kt:70-71 | a lower bound longer than the upper bound never differs from it only in nullability |
| ConeTypeProperties.FoldsEqualRemainders | idea/idea-frontend-fir/src/org/jetbrains/kotlin/idea/frontend/api/fir/renderer/ConeTypeRenderer.kt:117-135 | equal remainders after the prefixes fold to the folded prefix plus the remainder |
| ConeTypeProperties.FoldsNullableRemainder | idea/idea-frontend-fir/src/org/jetbrains/kotlin/idea/frontend/api/fir/renderer/ConeTypeRenderer.kt:117-135 | a nullable upper remainder folds with a trailing `!` |
| ConeTypeProperties.NoFoldForLongerLowerRemainder | idea/idea-frontend-fir/src/org/jetbrains/kotlin/idea/frontend/api/fir/renderer/ConeTypeRenderer.kt:117-135 | no fold when the lower remainder is longer than the upper one |
| ConeTypeProperties.MutableCollectionFolds | idea/idea-frontend-fir/src/org/jetbrains/kotlin/idea/frontend/api/fir/renderer/ConeTypeRenderer.kt:84-92 | `kotlin.collections.MutableX` / `kotlin.collections.X` renders as `kotlin.collections.(Mutable)X` |
| ConeTypeProperties.MutableCollectionFoldsNullable | idea/idea-frontend-fir/src/org/jetbrains/kotlin/idea/frontend/api/fir/renderer/ConeTypeRenderer.kt:84-92 | the same fold with a nullable upper bound ends in `!` |
| ConeTypeProperties.MutableEntryFolds | idea/idea-frontend-fir/src/org/jetbrains/kotlin/idea/frontend/api/fir/renderer/ConeTypeRenderer.kt:93-101 | `MutableMap.MutableEntry` / `Map.Entry` renders as `(Mutable)Map.(Mutable)Entry` |
| ConeTypeProperties.ArrayFolds | idea/idea-frontend-fir/src/org/jetbrains/kotlin/idea/frontend/api/fir/renderer/ConeTypeRenderer.kt:103-112 | `Array<X>` / `Array<out X>` renders as `Array<(out) X>` for every element text `X`, nullable ones included |
| DeclarationText.BlockContext | idea/idea-frontend-fir/src/org/jetbrains/kotlin/idea/frontend/api/fir/renderer/FirRenderer.kt:354-359 | inside a block the containing declaration is the block's owner and the indentation is four spaces longer, all spaces |
| DeclarationRenderer.RenderSpaceIfNeeded | idea/idea-frontend-fir/src/org/jetbrains/kotlin/idea/frontend/api/fir/renderer/FirRenderer.kt:634-638 | appends one space unless the text already ends with one |
| DeclarationRenderer.FirRenderer.constructor | idea/idea-frontend-fir/src/org/jetbrains/kotlin/idea/frontend/api/fir/renderer/FirRenderer.kt:349 | starts with the given containing declaration and options and no indentation |
| DeclarationRenderer.FirRenderer.RenderTypeRef | idea/idea-frontend-fir/src/org/jetbrains/kotlin/idea/frontend/api/fir/renderer/FirRenderer.kt:51-58 | renders the (approximated when asked) type after its annotations; fails when the type renderer fails |
| DeclarationRenderer.FirRenderer.RenderTypeRefs | idea/idea-frontend-fir/src/org/jetbrains/kotlin/idea/frontend/api/fir/renderer/FirRenderer.kt:605 | renders every supertype in order, failing with the first failure |
| DeclarationRenderer.FirRenderer.RenderTypeParameter | idea/idea-frontend-fir/src/org/jetbrains/kotlin/idea/frontend/api/fir/renderer/FirRenderer.kt:418-457 | appends `TypeParameterText`: reified, variance, name, and the bounds as inline or listed |
| DeclarationRenderer.FirRenderer.RenderAllBounds | idea/idea-frontend-fir/src/org/jetbrains/kotlin/idea/frontend/api/fir/renderer/FirRenderer.kt:436-449 | appends the bounds that are not `Any?` after ` : `, joined by ` & ` |
| DeclarationRenderer.FirRenderer.RenderTypeParameterList | idea/idea-frontend-fir/src/org/jetbrains/kotlin/idea/frontend/api/fir/renderer/FirRenderer.kt:473-482 | appends the parameters joined by `, ` |
| DeclarationRenderer.FirRenderer.RenderTypeParameters | idea/idea-frontend-fir/src/org/jetbrains/kotlin/idea/frontend/api/fir/renderer/FirRenderer.kt:462-471 | appends nothing for no parameters, otherwise `<…>` and an optional space |
| DeclarationRenderer.FirRenderer.RenderWhereSuffix | idea/idea-frontend-fir/src/org/jetbrains/kotlin/idea/frontend/api/fir/renderer/FirRenderer.kt:498-513 | appends ` where ` and one `T : B` entry per bound after the first, or nothing |
| DeclarationRenderer.FirRenderer.MapBoundsTo | idea/idea-frontend-fir/src/org/jetbrains/kotlin/idea/frontend/api/fir/renderer/FirRenderer.kt:504-506 | adds one `name : bound` entry per bound to the destination list |
| DeclarationRenderer.FirRenderer.RenderReceiver | idea/idea-frontend-fir/src/org/jetbrains/kotlin/idea/frontend/api/fir/renderer/FirRenderer.kt:484-496 | appends the receiver's annotations and type and `.`, parenthesised for a function type |
| DeclarationRenderer.FirRenderer.RenderValueParameter | idea/idea-frontend-fir/src/org/jetbrains/kotlin/idea/frontend/api/fir/renderer/FirRenderer.kt:532-575 | appends modifiers, `val`/`var` in a primary constructor, name, type and ` = ...` for a default value |
| DeclarationRenderer.FirRenderer.RenderValueParameters | idea/idea-frontend-fir/src/org/jetbrains/kotlin/idea/frontend/api/fir/renderer/FirRenderer.kt:515-529 | appends `(` + the parameters joined by `, ` + `)` |
| DeclarationRenderer.FirRenderer.RenderSuperTypes | idea/idea-frontend-fir/src/org/jetbrains/kotlin/idea/frontend/api/fir/renderer/FirRenderer.kt:601-611 | appends nothing for `Nothing` or a lone `Any`, otherwise `: ` and the supertypes |
| DeclarationRenderer.FirRenderer.VisitProperty | idea/idea-frontend-fir/src/org/jetbrains/kotlin/idea/frontend/api/fir/renderer/FirRenderer.kt:173-191 | appends the property text for the current state |
| DeclarationRenderer.FirRenderer.VisitPropertyAccessor | idea/idea-frontend-fir/src/org/jetbrains/kotlin/idea/frontend/api/fir/renderer/FirRenderer.kt:193-211 | fails outside a property; otherwise appends `get `/`set ` after the modifiers and the body; state unchanged on success |
| DeclarationRenderer.FirRenderer.VisitSimpleFunction | idea/idea-frontend-fir/src/org/jetbrains/kotlin/idea/frontend/api/fir/renderer/FirRenderer.kt:213-243 | appends the function head, then its body as a block when containing declarations are rendered; state unchanged on success |
| DeclarationRenderer.FirRenderer.RenderFunctionHead | idea/idea-frontend-fir/src/org/jetbrains/kotlin/idea/frontend/api/fir/renderer/FirRenderer.kt:214-236 | appends the function head text: modifiers, `fun`, type parameters, receiver, name, parameters, return type unless Unit, where suffix |
| DeclarationRenderer.FirRenderer.VisitTypeAlias | idea/idea-frontend-fir/src/org/jetbrains/kotlin/idea/frontend/api/fir/renderer/FirRenderer.kt:381-390 | appends `typealias Name<…> = T` after the modifiers |
| DeclarationRenderer.FirRenderer.RenderAnonymousObjectHead | idea/idea-frontend-fir/src/org/jetbrains/kotlin/idea/frontend/api/fir/renderer/FirRenderer.kt:251-258 | appends `object` and its supertypes on a new indented line |
| DeclarationRenderer.FirRenderer.VisitAnonymousObject | idea/idea-frontend-fir/src/org/jetbrains/kotlin/idea/frontend/api/fir/renderer/FirRenderer.kt:250-267 | appends the head and its members as a block; state unchanged on success |
| DeclarationRenderer.FirRenderer.RenderConstructorHead | idea/idea-frontend-fir/src/org/jetbrains/kotlin/idea/frontend/api/fir/renderer/FirRenderer.kt:270-287 | fails unless the container is a class or enum entry; otherwise appends `constructor`, the class name, type parameters, parameters and where suffix |
| DeclarationRenderer.FirRenderer.VisitConstructor | idea/idea-frontend-fir/src/org/jetbrains/kotlin/idea/frontend/api/fir/renderer/FirRenderer.kt:269-294 | appends the constructor head and its body as a block; state unchanged on success |
| DeclarationRenderer.FirRenderer.RenderClassModifiers | idea/idea-frontend-fir/src/org/jetbrains/kotlin/idea/frontend/api/fir/renderer/FirRenderer.kt:305-323 | appends visibility (not for enum entries), modality unless implied, member modifiers, inner/data/inline/fun and the classifier keyword |
| DeclarationRenderer.FirRenderer.RenderClassName | idea/idea-frontend-fir/src/org/jetbrains/kotlin/idea/frontend/api/fir/renderer/FirRenderer.kt:325-330 | appends a space if needed and the name, or the companion's name unless it is the default one |
| DeclarationRenderer.FirRenderer.RenderClassNamed | idea/idea-frontend-fir/src/org/jetbrains/kotlin/idea/frontend/api/fir/renderer/FirRenderer.kt:302-330 | appends the new line, indentation, modifiers and name |
| DeclarationRenderer.FirRenderer.RenderClassHead | idea/idea-frontend-fir/src/org/jetbrains/kotlin/idea/frontend/api/fir/renderer/FirRenderer.kt:301-338 | appends the class head; an enum entry stops after its name |
| DeclarationRenderer.FirRenderer.VisitRegularClass | idea/idea-frontend-fir/src/org/jetbrains/kotlin/idea/frontend/api/fir/renderer/FirRenderer.kt:300-347 | appends the head and the members as a block; state unchanged on success |
| DeclarationText.RegularClassVisit | idea/idea-frontend-fir/src/org/jetbrains/kotlin/idea/frontend/api/fir/renderer/FirRenderer.kt:300-346 | a class whose head fails fails with it; an enum entry, or a class without the containing-declarations option, renders its head alone; otherwise the head is followed by the block of its declarations |
| DeclarationRenderer.FirRenderer.UnderBlockDeclaration | idea/idea-frontend-fir/src/org/jetbrains/kotlin/idea/frontend/api/fir/renderer/FirRenderer.kt:351-379 | appends ` {`, the members one level deeper and the closing brace, or nothing when the members wrote nothing; restores the state |
| DeclarationRenderer.FirRenderer.AcceptAll | idea/idea-frontend-fir/src/org/jetbrains/kotlin/idea/frontend/api/fir/renderer/FirRenderer.kt:342-344 | appends every member in order, stopping at the first failure |
| DeclarationRenderer.FirRenderer.Accept | idea/idea-frontend-fir/src/org/jetbrains/kotlin/idea/frontend/api/fir/renderer/FirRenderer.kt:169-394 | dispatches to the visit for the element's kind; other elements visit their children |
| DeclarationRenderer.Render | idea/idea-frontend-fir/src/org/jetbrains/kotlin/idea/frontend/api/fir/renderer/FirRenderer.kt:397-413 | renders from no indentation and trims spaces, newlines and tabs |
| Text.TrimIsMaximalSlice | idea/idea-frontend-fir/src/org/jetbrains/kotlin/idea/frontend/api/fir/renderer/FirRenderer.kt:412 | trimming keeps a contiguous slice; everything cut is a trimmed character and the ends are not |
| DeclarationProperties.RenderAllPointwise | idea/idea-frontend-fir/src/org/jetbrains/kotlin/idea/frontend/api/fir/renderer/FirRenderer.kt:473-482 | a rendered list succeeds iff every element does, element by element |
| DeclarationProperties.RenderAllFirstFailure | idea/idea-frontend-fir/src/org/jetbrains/kotlin/idea/frontend/api/fir/renderer/FirRenderer.kt:473-482 | a list fails with the failure of its first failing element |
| DeclarationProperties.MembersSucceedPointwise | idea/idea-frontend-fir/src/org/jetbrains/kotlin/idea/frontend/api/fir/renderer/FirRenderer.kt:341-345 | a block's members render iff each member does |
| DeclarationProperties.MembersAppend | idea/idea-frontend-fir/src/org/jetbrains/kotlin/idea/frontend/api/fir/renderer/FirRenderer.kt:341-345 | rendering two member lists one after the other is the concatenation |
| DeclarationProperties.BlockRollsBack | idea/idea-frontend-fir/src/org/jetbrains/kotlin/idea/frontend/api/fir/renderer/FirRenderer.kt:351-371 | a block writes nothing iff its members wrote nothing, otherwise ` {` + members + newline + outer indentation + `}` |
| DeclarationProperties.EmptyGroupsWriteNothing | idea/idea-frontend-fir/src/org/jetbrains/kotlin/idea/frontend/api/fir/renderer/FirRenderer.kt:392-394 | elements with no children write nothing |
| DeclarationProperties.ValueParametersRendering | idea/idea-frontend-fir/src/org/jetbrains/kotlin/idea/frontend/api/fir/renderer/FirRenderer.kt:515-529 | the list renders iff each parameter does, as `(` + texts joined by `, ` + `)` |
| DeclarationProperties.ValueParametersLength | idea/idea-frontend-fir/src/org/jetbrains/kotlin/idea/frontend/api/fir/renderer/FirRenderer.kt:515-529 | the length is the parentheses, the parameter texts and one `, ` between each pair |
| DeclarationProperties.DefaultValueElided | idea/idea-frontend-fir/src/org/jetbrains/kotlin/idea/frontend/api/fir/renderer/FirRenderer.kt:532-550 | a parameter ends with `name: Type`, followed by ` = ...` exactly when it has a default value |
| DeclarationProperties.ListedBoundsFilter | idea/idea-frontend-fir/src/org/jetbrains/kotlin/idea/frontend/api/fir/renderer/FirRenderer.kt:438-441 | the listed bounds are exactly those that are not `Any?` |
| DeclarationProperties.FirstBoundOnlyInline | idea/idea-frontend-fir/src/org/jetbrains/kotlin/idea/frontend/api/fir/renderer/FirRenderer.kt:431-435 | outside the top level, or with one bound, only the first bound is shown, and not when it is `Any?` |
| DeclarationProperties.TopLevelBoundsListed | idea/idea-frontend-fir/src/org/jetbrains/kotlin/idea/frontend/api/fir/renderer/FirRenderer.kt:436-449 | at the top level with several bounds, all bounds that are not `Any?` are listed after ` : ` and joined by ` & ` |
| DeclarationProperties.TypeParametersRendering | idea/idea-frontend-fir/src/org/jetbrains/kotlin/idea/frontend/api/fir/renderer/FirRenderer.kt:462-482 | no parameters render as nothing; otherwise `<` + list + `>` and the optional space, failing iff the list fails |
| DeclarationProperties.ExtraBoundCountZero | idea/idea-frontend-fir/src/org/jetbrains/kotlin/idea/frontend/api/fir/renderer/FirRenderer.kt:498-513 | there are no extra bounds iff every parameter has at most one bound |
| DeclarationProperties.WhereEntriesCount | idea/idea-frontend-fir/src/org/jetbrains/kotlin/idea/frontend/api/fir/renderer/FirRenderer.kt:498-513 | the where clause has one entry per bound after the first of each parameter |
| DeclarationProperties.WhereEntriesOfParameter | idea/idea-frontend-fir/src/org/jetbrains/kotlin/idea/frontend/api/fir/renderer/FirRenderer.kt:502-507 | the entries of one parameter are `name : bound` for each bound after the first |
| DeclarationProperties.WhereSuffixPresence | idea/idea-frontend-fir/src/org/jetbrains/kotlin/idea/frontend/api/fir/renderer/FirRenderer.kt:498-513 | the suffix is empty iff no parameter has two bounds, otherwise ` where ` + the entries joined by `, ` |
| DeclarationProperties.VisibilityOmitted | idea/idea-frontend-fir/src/org/jetbrains/kotlin/idea/frontend/api/fir/renderer/FirRenderer.kt:86-96 | visibility is omitted iff the option is off or the (normalized) visibility is the default; otherwise its name and a space |
| DeclarationProperties.CallableModalityOmitted | idea/idea-frontend-fir/src/org/jetbrains/kotlin/idea/frontend/api/fir/renderer/FirRenderer.kt:118-130 | a callable's modality is omitted iff it has none, is final at the top level, overrides something, or the option is off |
| DeclarationProperties.ClassModalityOmitted | idea/idea-frontend-fir/src/org/jetbrains/kotlin/idea/frontend/api/fir/renderer/FirRenderer.kt:310-316 | a class's modality is omitted iff it is an abstract interface, a final singleton, has none, or the option is off |
| DeclarationProperties.EnumEntryStopsAfterName | idea/idea-frontend-fir/src/org/jetbrains/kotlin/idea/frontend/api/fir/renderer/FirRenderer.kt:332 | an enum entry renders up to its name, with no type parameters, supertypes or body |
| DeclarationProperties.DefaultCompanionUnnamed | idea/idea-frontend-fir/src/org/jetbrains/kotlin/idea/frontend/api/fir/renderer/FirRenderer.kt:79-84 | a companion with the default name renders as `… companion object` with no name |
| DeclarationProperties.UnitReturnTypeElided | idea/idea-frontend-fir/src/org/jetbrains/kotlin/idea/frontend/api/fir/renderer/FirRenderer.kt:230-233 | the return type is omitted iff it is `Unit` and the option is off |
| DeclarationProperties.SpaceIfNeededSingle | idea/idea-frontend-fir/src/org/jetbrains/kotlin/idea/frontend/api/fir/renderer/FirRenderer.kt:634-638 | afterwards the text ends with a space, and at most one was added, none iff one was there |
| DeclarationProperties.SuperTypesOmitted | idea/idea-frontend-fir/src/org/jetbrains/kotlin/idea/frontend/api/fir/renderer/FirRenderer.kt:601-611 | `Nothing` or only `Any` as supertypes writes nothing; otherwise the supertypes after `: ` |
| DeclarationProperties.NoBlocksWithoutContainingDeclarations | idea/idea-frontend-fir/src/org/jetbrains/kotlin/idea/frontend/api/fir/renderer/FirRenderer.kt:238-242 | without the option, classes, functions and anonymous objects render only their heads |
| DeclarationProperties.ClassHeadOnly | idea/idea-frontend-fir/src/org/jetbrains/kotlin/idea/frontend/api/fir/renderer/FirRenderer.kt:339-346 | without the containing-declarations option a class renders its head and nothing more |
| DeclarationProperties.FunctionHeadOnly | idea/idea-frontend-fir/src/org/jetbrains/kotlin/idea/frontend/api/fir/renderer/FirRenderer.kt:238-242 | without the option a function renders its head and nothing more |
| DeclarationProperties.AnonymousObjectHeadOnly | idea/idea-frontend-fir/src/org/jetbrains/kotlin/idea/frontend/api/fir/renderer/FirRenderer.kt:260-266 | without the option an anonymous object renders its head and nothing more |
| DeclarationProperties.ContainerChecks | idea/idea-frontend-fir/src/org/jetbrains/kotlin/idea/frontend/api/fir/renderer/FirRenderer.kt:194 | an accessor outside a property fails, and a constructor outside a class or enum entry fails |
| DeclarationProperties.ConstructorInFunctionBodyFails | idea/idea-frontend-fir/src/org/jetbrains/kotlin/idea/frontend/api/fir/renderer/FirRenderer.kt:274 | inside a function body the container is the function, so a constructor there makes the whole function fail |
| DeclarationProperties.MembersFailWithFirstFailure | idea/idea-frontend-fir/src/org/jetbrains/kotlin/idea/frontend/api/fir/renderer/FirRenderer.kt:341-345 | a block fails with its first failing member, whatever follows |
| DeclarationProperties.RenderTrims | idea/idea-frontend-fir/src/org/jetbrains/kotlin/idea/frontend/api/fir/renderer/FirRenderer.kt:410-412 | `render` keeps a slice of the visit's text with only whitespace cut at both ends |
| DeclarationProperties.TopLevelConstructorFails | idea/idea-frontend-fir/src/org/jetbrains/kotlin/idea/frontend/api/fir/renderer/FirRenderer.kt:274 | a constructor rendered with no containing declaration fails |
| FunInterfaceChecker.Check | compiler/fir/checkers/src/org/jetbrains/kotlin/fir/analysis/checkers/declaration/FirFunInterfaceDeclarationChecker.kt:23-84 | reports exactly `Diagnostics(declaration)`, in order |
| FunInterfaceChecker.FindInheritedAbstractFunction | compiler/fir/checkers/src/org/jetbrains/kotlin/fir/analysis/checkers/declaration/FirFunInterfaceDeclarationChecker.kt:28-41 | finds the first abstract function of the first resolved supertype that has one |
| FunInterfaceChecker.FindAbstractFunction | compiler/fir/checkers/src/org/jetbrains/kotlin/fir/analysis/checkers/declaration/FirFunInterfaceDeclarationChecker.kt:31-36 | finds the first abstract simple function among a supertype's declarations |
| FunInterfaceProperties.OfKindAppend | compiler/fir/checkers/src/org/jetbrains/kotlin/fir/analysis/checkers/declaration/FirFunInterfaceDeclarationChecker.kt:23-84 | selecting the diagnostics of one kind distributes over concatenation |
| FunInterfaceProperties.OnlyFunInterfacesChecked | compiler/fir/checkers/src/org/jetbrains/kotlin/fir/analysis/checkers/declaration/FirFunInterfaceDeclarationChecker.kt:24 | a class that is not a `fun interface` gets no diagnostics |
| FunInterfaceProperties.FirstAbstractFunctionIsFirst | compiler/fir/checkers/src/org/jetbrains/kotlin/fir/analysis/checkers/declaration/FirFunInterfaceDeclarationChecker.kt:31-36 | none is found iff no declaration is an abstract function; otherwise it is the one at the first such index |
| FunInterfaceProperties.InheritedCandidateIsFirst | compiler/fir/checkers/src/org/jetbrains/kotlin/fir/analysis/checkers/declaration/FirFunInterfaceDeclarationChecker.kt:28-41 | none iff no resolved supertype offers one; otherwise it comes from the first supertype that does, and the earlier ones are skipped |
| FunInterfaceProperties.WrongCountInScan | compiler/fir/checkers/src/org/jetbrains/kotlin/fir/analysis/checkers/declaration/FirFunInterfaceDeclarationChecker.kt:43-53 | the scan reports every own abstract function as a wrong count except the first when no candidate existed, all on the class's source |
| FunInterfaceProperties.PropertiesReportedRegardless | compiler/fir/checkers/src/org/jetbrains/kotlin/fir/analysis/checkers/declaration/FirFunInterfaceDeclarationChecker.kt:54-58 | every abstract property is reported on its own source, whatever the candidate |
| FunInterfaceProperties.ScanWithoutFunctions | compiler/fir/checkers/src/org/jetbrains/kotlin/fir/analysis/checkers/declaration/FirFunInterfaceDeclarationChecker.kt:43-60 | with no own abstract function, the scan reports only the abstract properties |
| FunInterfaceProperties.NoAbstractFunctionCounted | compiler/fir/checkers/src/org/jetbrains/kotlin/fir/analysis/checkers/declaration/FirFunInterfaceDeclarationChecker.kt:43-53 | finding no abstract function means there are none to count |
| FunInterfaceProperties.NoCandidateReportsOnce | compiler/fir/checkers/src/org/jetbrains/kotlin/fir/analysis/checkers/declaration/FirFunInterfaceDeclarationChecker.kt:62-65 | with no abstract function anywhere, the diagnostics are the property diagnostics and one wrong count on the class |
| FunInterfaceProperties.InheritedCandidateMakesOwnFunctionsWrong | compiler/fir/checkers/src/org/jetbrains/kotlin/fir/analysis/checkers/declaration/FirFunInterfaceDeclarationChecker.kt:47-51 | with an inherited abstract function, every own abstract function is one wrong-count diagnostic |
| FunInterfaceProperties.DefaultValuesOnly | compiler/fir/checkers/src/org/jetbrains/kotlin/fir/analysis/checkers/declaration/FirFunInterfaceDeclarationChecker.kt:79-83 | the parameter scan reports only default-value diagnostics |
| FunInterfaceProperties.DefaultValueDiagnosticsPointwise | compiler/fir/checkers/src/org/jetbrains/kotlin/fir/analysis/checkers/declaration/FirFunInterfaceDeclarationChecker.kt:79-83 | a default-value diagnostic is reported on a parameter's source iff that parameter has a default value |
| FunInterfaceProperties.SignatureRules | compiler/fir/checkers/src/org/jetbrains/kotlin/fir/analysis/checkers/declaration/FirFunInterfaceDeclarationChecker.kt:67-83 | type parameters are reported once, at the first one's source, and then no suspend report; without type parameters there is no type-parameter report and a suspend function is reported once, at its own source; the default values are reported one per parameter |
| FunInterfaceProperties.ScanReportsOnlyScanKinds | compiler/fir/checkers/src/org/jetbrains/kotlin/fir/analysis/checkers/declaration/FirFunInterfaceDeclarationChecker.kt:43-60 | the declaration scan reports only wrong counts and abstract properties |
| Commonizer.Lookup | native/commonizer/src/org/jetbrains/kotlin/commonizer/TargetDependent.kt:68 | a key is found iff it is among the map's keys |
| Commonizer.Put | native/commonizer/src/org/jetbrains/kotlin/commonizer/TargetDependent.kt:40 | keeps the key order and appends a new key at the end |
| Commonizer.PutLookup | native/commonizer/src/org/jetbrains/kotlin/commonizer/TargetDependent.kt:40 | after `put` the key maps to the value and every other key is unchanged |
| Commonizer.LookupFindsEntry | native/commonizer/src/org/jetbrains/kotlin/commonizer/TargetDependent.kt:68 | with distinct keys, looking up an entry's key gives its value |
| Commonizer.FirstIndex | native/commonizer/src/org/jetbrains/kotlin/commonizer/TargetDependent.kt:13 | -1 iff the target is absent, otherwise the index of its first occurrence |
| Commonizer.TargetDependent.IndexOf | native/commonizer/src/org/jetbrains/kotlin/commonizer/TargetDependent.kt:13 | negative iff the target is missing; otherwise the first position of the target |
| Commonizer.TargetDependent.Get | native/commonizer/src/org/jetbrains/kotlin/commonizer/TargetDependent.kt:25 | a missing target fails with `MissingTarget`; a map-based container has a value for every target |
| Commonizer.ToTargetDependent | native/commonizer/src/org/jetbrains/kotlin/commonizer/TargetDependent.kt:45-47 | the targets are the map's keys, in order |
| Commonizer.PutEach | native/commonizer/src/org/jetbrains/kotlin/commonizer/TargetDependent.kt:39-41 | the loop puts `get(key)` for each key in order, stopping at the first failing get |
| Commonizer.ToMapAsWritten | native/commonizer/src/org/jetbrains/kotlin/commonizer/TargetDependent.kt:37-43 | `toMap` as written always returns the empty map |
| Commonizer.ToMap | native/commonizer/src/org/jetbrains/kotlin/commonizer/TargetDependent.kt:37-43 | the corrected `toMap` puts every target of the container |
| Commonizer.FactoryBasedTargetDependent.constructor | native/commonizer/src/org/jetbrains/kotlin/commonizer/TargetDependent.kt:74-81 | every slot starts uninitialized and the factory is held |
| Commonizer.FactoryBasedTargetDependent.Get | native/commonizer/src/org/jetbrains/kotlin/commonizer/TargetDependent.kt:84-100 | returns the value of the factory-based view; the factory runs at most once per slot, stores its result in the target's first slot, and is released exactly when the last slot is filled |
| CommonizerProperties.MapBasedIsLookup | native/commonizer/src/org/jetbrains/kotlin/commonizer/TargetDependent.kt:66-69 | a map-based container's targets are the map's keys and `get` is `getValue` |
| CommonizerProperties.GetOrNullAgreesWithGet | native/commonizer/src/org/jetbrains/kotlin/commonizer/TargetDependent.kt:27-29 | `getOrNull` gives null iff the target is missing, and otherwise agrees with `get` |
| CommonizerProperties.ValuesYieldGets | native/commonizer/src/org/jetbrains/kotlin/commonizer/TargetDependent.kt:21-23 | iterating succeeds iff every target's get does, yielding those values in target order, and otherwise stops at the first failure |
| CommonizerProperties.MapPointwise | native/commonizer/src/org/jetbrains/kotlin/commonizer/TargetDependent.kt:15-19 | `map` keeps the targets and maps each value with its target; missing targets still fail |
| CommonizerProperties.MapValuePointwise | native/commonizer/src/org/jetbrains/kotlin/commonizer/TargetDependent.kt:49-51 | `mapValue` keeps the targets and maps each value |
| CommonizerProperties.MapTargetsPointwise | native/commonizer/src/org/jetbrains/kotlin/commonizer/TargetDependent.kt:53-55 | `mapTargets` keeps the targets and never consults the original values |
| CommonizerProperties.NonNullTargetsSucceeds | native/commonizer/src/org/jetbrains/kotlin/commonizer/TargetDependent.kt:33 | the filter succeeds iff every get does; when it fails, it reports the failure of the first target whose get fails |
| CommonizerProperties.NonNullTargetsKeeps | native/commonizer/src/org/jetbrains/kotlin/commonizer/TargetDependent.kt:33 | a successful filter keeps an in-order subsequence of the targets, and keeps a target iff its value is non-null |
| CommonizerProperties.SubsequenceOfTail | native/commonizer/src/org/jetbrains/kotlin/commonizer/TargetDependent.kt:33 | a subsequence of the tail is a subsequence of the whole |
| CommonizerProperties.SubsequenceOfLonger | native/commonizer/src/org/jetbrains/kotlin/commonizer/TargetDependent.kt:33 | dropping the first element keeps a subsequence |
| CommonizerProperties.FilterNonNullKeeps | native/commonizer/src/org/jetbrains/kotlin/commonizer/TargetDependent.kt:32-35 | `filterNonNull` keeps exactly the targets with non-null values and unwraps them |
| CommonizerProperties.PutAllStores | native/commonizer/src/org/jetbrains/kotlin/commonizer/TargetDependent.kt:39-41 | putting all keys succeeds iff each get does; then each put key maps to its get and every other key is unchanged |
| CommonizerProperties.PutAllKeys | native/commonizer/src/org/jetbrains/kotlin/commonizer/TargetDependent.kt:39-41 | with distinct keys, the resulting key order is the old keys followed by the new ones |
| CommonizerProperties.DistinctSplit | native/commonizer/src/org/jetbrains/kotlin/commonizer/TargetDependent.kt:39-41 | in a distinct concatenation no element of the second part occurs in the first |
| CommonizerProperties.ToMapRoundTrip | native/commonizer/src/org/jetbrains/kotlin/commonizer/TargetDependent.kt:37-47 | converting with the corrected `toMap` and back gives the same `get` for every target, and the same targets when they are distinct |
| CommonizerProperties.ToMapAsWrittenLosesTargets | native/commonizer/src/org/jetbrains/kotlin/commonizer/TargetDependent.kt:37-43 | for a non-empty container the intended map is not empty, so the map as written loses every target |
| Wrappers.AllSuccess | native/commonizer/src/org/jetbrains/kotlin/commonizer/TargetDependent.kt:21-23 | a sequence of results succeeds iff every element does, with the values in order |
| Wrappers.AllSuccessFirstFailure | native/commonizer/src/org/jetbrains/kotlin/commonizer/TargetDependent.kt:21-23 | a failing sequence fails with the error of one of its elements |

## Left out

- The FIR session's queries are precomputed data on the model's nodes, and the model
  does not compute them:
  - `toSymbol`, `fullyExpandedClass`, `collectDesignation`;
  - `isBuiltinFunctionalType`, `isSuspendFunctionType`;
  - the receiver, return and parameter types of a function type;
  - `PublicTypeApproximator`;
  - `toRegularClass` in the checker.
- Annotation rendering is given as precomputed text.
- `Name.render()` is a field of the name.
- `Visibility.normalize()` is a function carried by the options.
- `overridesSomething` (PSI access) is a boolean flag on the declaration.
- The `StringBuilder` is threaded through as a string value, so the model does not
  capture the sharing of one mutable buffer.
- After a failure (an exception in the source) the model makes no promise about the
  renderer's state, because the code does not restore it.
- `assert(firRef is FirResolvedTypeRef)` in `renderType`: every type reference in the
  model is resolved.
- Dead or unused code is left out:
  - the commented-out `renderWithOuters`;
  - the `hasAnnotations` branches;
  - the `defaultModality` argument of `renderModality`, and
    `implicitModalityWithoutExtensions`, which only feeds it.
- `reportOn` with a null source, and the reporter's deduplication, live outside the
  checker and are not part of this model.
- `FactoryBasedTargetDependent` is documented as not thread safe; concurrency is not
  modelled.
- Exceptions thrown by the `mapper` lambdas are not modelled: mappers are total. A
  factory returns a `Result`, so a failing `get` inside one is kept.
- The factory of `FactoryBasedTargetDependent` and the `mapper` lambdas are modelled as
  pure, deterministic functions. The source stores the factory's first answer and returns
  it later, whatever the factory would answer then; `FactoryBasedTargetDependent.Get`'s
  promise that it returns the factory-based view's value relies on the model's factory
  always giving the same answer.
- Commonizer.TargetDependent.GetOrNull: Kotlin's nullable `T?` makes a stored `null`
  look the same as a missing target. The model keeps the two apart and proves only
  that "missing" gives no value.
- Iteration over a `TargetDependent` is lazy in the source. The model captures only
  where it stops: at the first failing `get`.
- `CommonizerTarget` is reduced to an identity (its name). Equality on it is the
  equality the maps and `indexOf` use.
- The renderer's `visitValueParameter`, `visitTypeParameter` and
  `visitThisReceiverExpression` are reached only through `Accept`. They have no
  separate members.

## Findings

| source | as written | input that shows it | evidently intended | confidence | as-written member | corrected member |
|---|---|---|---|---|---|---|
| native/commonizer/src/org/jetbrains/kotlin/commonizer/TargetDependent.kt:37-43 | inside `mutableMapOf().apply { for (key in keys) … }`, `keys` is the new, empty map's own key set, so the loop never runs | any container with one target, e.g. `linux_x64` mapped to 1: `toMap()` returns `{}` | a map from every target of the container to its value | high (not executed) | Commonizer.ToMapAsWritten, CommonizerProperties.ToMapAsWrittenLosesTargets | Commonizer.ToMap, CommonizerProperties.ToMapRoundTrip |
