# Quivela4 checker core, modelled in Dafny

Quivela4 checks proofs that two programs in its object calculus are
equivalent, or are equivalent up to a bounded distance. A proof is a chain of
steps: rewriting with earlier facts, unfolding function definitions, inlining
objects, hybrid arguments, and bisimulations whose side conditions are
translated into Boogie programs for an external verifier. This project models
the sequential core of that checker and proves properties of the model:

- the scoped symbol table: constant, mutable and logical frames, innermost
  redeclaration checks and lookup from the inside out;
- unification, the substitution passes, the rewriter, the expression simplifier,
  free-variable collection and the other tree walks the tactics use;
- the unfold and inline tactics;
- the proof-obligation stack of the checker, with subgoals, symmetry, admit,
  trivial, rewrite, hybrid, proof closing and imports;
- the Boogie back end: typed values and their coercions, the interning tables for
  classes, constants, methods and functions, the expression, proposition, bounds,
  parameter and object converters, the class declarations and the bisimulation
  generator, all writing to an indenting output stream.

Parse trees are one flat `Expr` datatype, with `Prop` for propositions and
`Bounds` for distances. Each constructor is the innermost meaningful node of the
generated grammar's chain of wrapper nodes; the grammar level of a node is kept
where the source depends on it. The source compares nodes by their printed text;
here a concrete token renderer, `Syntax.Render`, stands in for that text. A Java
`RuntimeException` is `InternalFail(message)`, a `CheckException` is
`CheckFail(message)`, and a dereference of a missing value is `NullPointer()`.
Code that updates state step by step is a class with methods proved against
functions on values. Those functions are what the pure passes and the lemmas use.

## Model

| member | source | states |
|---|---|---|
| SymbolTable.Frame.constructor | src/main/java/com/amazon/quivela/checker/SymbolTableFrame.java:18-23 | a new frame has the given kind, which is a constant field and never changes, and no ids |
| SymbolTable.Frame.Add | src/main/java/com/amazon/quivela/checker/SymbolTableFrame.java:25-27 | `add` is a map put: the id is bound to the new type (possibly null), overwriting an earlier binding; other ids keep theirs |
| SymbolTable.Frame.Contains | src/main/java/com/amazon/quivela/checker/SymbolTableFrame.java:28-30 | true exactly for the added ids, including one added with a null type |
| SymbolTable.Frame.AddAll | src/main/java/com/amazon/quivela/checker/SymbolTableFrame.java:34-38 | afterwards the frame binds every id of both frames, with the other frame's type winning on a shared id |
| SymbolTable.Frame.GetIds | src/main/java/com/amazon/quivela/checker/SymbolTableFrame.java:39-41 | the ids are exactly those `contains` accepts |
| SymbolTable.Frame.GetType | src/main/java/com/amazon/quivela/checker/SymbolTableFrame.java:43-45 | the last type stored for the id, null when the id is absent |
| SymbolTable.Table.constructor | src/main/java/com/amazon/quivela/checker/SymbolTable.java:10-12 | a new table holds no frames |
| SymbolTable.Innermost | src/main/java/com/amazon/quivela/checker/SymbolTable.java:14-21 | the index of the first frame from the top that declares the name: it declares it and no frame above it does; none when no frame declares it |
| SymbolTable.AllSymbols | src/main/java/com/amazon/quivela/checker/SymbolTable.java:81-87 | a name is in the union iff some frame declares it |
| SymbolTable.ReferenceAllowedIffDeclared | src/main/java/com/amazon/quivela/checker/SymbolTable.java:38-45 | a reference is allowed iff the name is in `allSymbols`, and a non-null type is only ever found for a referenceable name |
| SymbolTable.AddValueEffect | src/main/java/com/amazon/quivela/checker/SymbolTable.java:47-49 | after `addSymbol` the name resolves to the new type, other names resolve as before, redeclaring it in the same frame is refused, `allSymbols` grows by exactly the name, and it is modifiable iff the top frame is not constant |
| SymbolTable.PushShadows | src/main/java/com/amazon/quivela/checker/SymbolTable.java:65-71 | names of a pushed frame resolve in it and take its kind for modifiability; all other names resolve as before the push; declaration checks look only at the new frame |
| SymbolTable.AddEachEffect | src/main/java/com/amazon/quivela/checker/SymbolTable.java:57-63 | after `addAll` the top frame declares exactly its old ids plus every listed symbol |
| SymbolTable.Table.GetType | src/main/java/com/amazon/quivela/checker/SymbolTable.java:14-21 | the loop from the top returns the type from the innermost frame containing the name (that type may be null), null when no frame contains it |
| SymbolTable.Table.SymbolModifiable | src/main/java/com/amazon/quivela/checker/SymbolTable.java:23-30 | false for an undeclared name and when the nearest declaring frame is CONSTANT; true for MUTABLE and LOGICAL |
| SymbolTable.Table.VarDeclarationAllowed | src/main/java/com/amazon/quivela/checker/SymbolTable.java:33-36 | true iff the top frame lacks the name; outer frames are ignored |
| SymbolTable.Table.VarReferenceAllowed | src/main/java/com/amazon/quivela/checker/SymbolTable.java:38-45 | true iff some frame contains the name |
| SymbolTable.Table.AddSymbol | src/main/java/com/amazon/quivela/checker/SymbolTable.java:47-49 | only the top frame changes, by binding the symbol; the stack itself is unchanged |
| SymbolTable.Table.AddAllOfType | src/main/java/com/amazon/quivela/checker/SymbolTable.java:51-55 | every symbol is added to the top frame with the one type, in order |
| SymbolTable.Table.AddAllTyped | src/main/java/com/amazon/quivela/checker/SymbolTable.java:57-63 | the i-th symbol is added with the i-th type, in order |
| SymbolTable.Table.PushFrame | src/main/java/com/amazon/quivela/checker/SymbolTable.java:65-67 | a fresh empty CONSTANT frame (argument true) or MUTABLE frame (false) goes on top; the old frames are below it unchanged |
| SymbolTable.Table.PushLogicalFrame | src/main/java/com/amazon/quivela/checker/SymbolTable.java:69-71 | a fresh empty LOGICAL frame goes on top |
| SymbolTable.Table.PopFrame | src/main/java/com/amazon/quivela/checker/SymbolTable.java:73-75 | returns the most recently pushed frame and the depth drops by one, the rest unchanged |
| SymbolTable.Table.PeekFrame | src/main/java/com/amazon/quivela/checker/SymbolTable.java:77-79 | the top frame, null for an empty stack |
| SymbolTable.Table.AllSymbolsOf | src/main/java/com/amazon/quivela/checker/SymbolTable.java:81-87 | the loop's union equals the union of the ids of all frames |
| SymbolTable.Table.GetDepth | src/main/java/com/amazon/quivela/checker/SymbolTable.java:89-91 | the number of frames |
| Unifier.LeftRightEquals | src/main/java/com/amazon/quivela/checker/Unifier.java:41-71 | both sides null is equal; otherwise equal iff the texts are equal and no identifier of the left side is a left or a right variable (both checks read the left side); a null left side with a non-null right side raises |
| Unifier.DeleteIndex | src/main/java/com/amazon/quivela/checker/Unifier.java:76-95 | the index Delete removes lies inside the worklist at or after the scan start |
| Unifier.DeleteIndexFirst | src/main/java/com/amazon/quivela/checker/Unifier.java:76-95 | the removed pair is trivially equal or duplicates another pair, and every pair before it is neither; with no index, no pair qualifies |
| Unifier.DeleteStep | src/main/java/com/amazon/quivela/checker/Unifier.java:73-98 | a Delete step removes exactly one pair and lowers the worklist's weight |
| Unifier.ArgPairs | src/main/java/com/amazon/quivela/checker/Unifier.java:283-285 | the i-th argument of the left call is paired with the i-th argument of the right call, one pair per argument |
| Unifier.DecomposeWeight | src/main/java/com/amazon/quivela/checker/Unifier.java:119-333 | the child pairs a decomposition produces weigh no more than the pair they replace, so unification terminates |
| Unifier.DecomposeSameShape | src/main/java/com/amazon/quivela/checker/Unifier.java:119-339 | a decomposition only pairs nodes of the same class, comparisons only with the same operator and calls only of the same function with as many arguments; identifiers and nulls never decompose |
| Unifier.DecomposeRaises | src/main/java/com/amazon/quivela/checker/Unifier.java:114-117 | calls of one function with different argument counts raise the length-mismatch error, and node classes without a case (literals, sums, products, invocations, `new`, ternaries, logic operators) raise |
| Unifier.DecomposeIndex | src/main/java/com/amazon/quivela/checker/Unifier.java:344-354 | the decomposed pair is the first one whose decomposer yields children, and every pair before it yields none |
| Unifier.DecomposeStep | src/main/java/com/amazon/quivela/checker/Unifier.java:342-357 | a Decompose step removes the first decomposable pair, appends its children at the end and lowers the weight |
| Unifier.TransformStep | src/main/java/com/amazon/quivela/checker/Unifier.java:428-435 | Delete is tried first and Decompose only when Delete does not apply; each applied transform lowers the weight |
| Unifier.GetIdentifier | src/main/java/com/amazon/quivela/checker/Unifier.java:387-403 | an identifier is found exactly for an identifier token or a lookup seen through the product and sum wrappers |
| Unifier.SolvedFormIff | src/main/java/com/amazon/quivela/checker/Unifier.java:405-426 | the worklist is solved iff every left side is a pattern variable and none occurs twice; the solution maps each such variable to its right side and has no other key |
| Unifier.UnifyKeysArePatternVars | src/main/java/com/amazon/quivela/checker/Unifier.java:437-449 | every key of a returned substitution is a pattern variable |
| Unifier.UnifyIdentical | src/main/java/com/amazon/quivela/checker/Unifier.java:437-449 | a term without pattern or target variables unifies with itself, with the empty substitution |
| Unifier.UnifyVariable | src/main/java/com/amazon/quivela/checker/Unifier.java:437-449 | a pattern that is one pattern variable at the sum level or below matches any target at once, binding it to the target |
| Unifier.UnifyVariableAtExprLevel | src/main/java/com/amazon/quivela/checker/Unifier.java:387-403 | a pattern variable seen at the expression level is not recognised as a variable, so it does not match a sum and unification gives null |
| Unifier.Unifier.constructor | src/main/java/com/amazon/quivela/checker/Unifier.java:378-385 | the unifier starts with the one pair (left, right) and keeps the two variable sets |
| Unifier.Unifier.Duplicate | src/main/java/com/amazon/quivela/checker/Unifier.java:84-94 | true iff another pair has the same texts on both sides |
| Unifier.Unifier.Delete | src/main/java/com/amazon/quivela/checker/Unifier.java:73-98 | reports and performs exactly the Delete step of the specification, leaving the worklist as it was when nothing is deletable |
| Unifier.Unifier.DecomposeOnce | src/main/java/com/amazon/quivela/checker/Unifier.java:342-357 | reports and performs exactly the Decompose step of the specification |
| Unifier.Unifier.TransformOnce | src/main/java/com/amazon/quivela/checker/Unifier.java:428-435 | reports and performs exactly one transform step, Delete before Decompose |
| Unifier.Unifier.GetSolvedForm | src/main/java/com/amazon/quivela/checker/Unifier.java:405-426 | returns the solved form of the current worklist, null as soon as a left side is not a fresh pattern variable |
| Unifier.Unifier.Unify | src/main/java/com/amazon/quivela/checker/Unifier.java:437-449 | the result is the specification's unification of the initial worklist: the first solved form reached, null when no transform applies, or the error a transform raised |
| Substituter.Mapped | src/main/java/com/amazon/quivela/checker/visitor/Substituter.java:26-28 | a name has a substitute exactly when the solution binds it to a non-null node |
| Substituter.LookupHit | src/main/java/com/amazon/quivela/checker/visitor/Substituter.java:24-40 | an unmapped lookup is kept, a lookup mapped to an identifier is renamed, and a lookup mapped to another node replaces its enclosing expression region, which once replaced stays replaced |
| Substituter.TargetHit | src/main/java/com/amazon/quivela/checker/visitor/Substituter.java:61-68 | an assignment target is kept when unmapped, renamed when mapped to an identifier, and fails when mapped to any other node (the token slot cannot hold it) |
| Substituter.Walk | src/main/java/com/amazon/quivela/checker/visitor/Substituter.java:24-40 | a walk started after its region was replaced leaves that replacement in place |
| Substituter.Regions | src/main/java/com/amazon/quivela/checker/visitor/Substituter.java:24-40 | each argument is its own region: the result has one expression per argument |
| Substituter.BoundsLookupHit | src/main/java/com/amazon/quivela/checker/visitor/Substituter.java:42-59 | in a bounds expression an identifier renames the lookup, a literal or lookup becomes the same literal or lookup, and any other node becomes the parenthesised bounds form of the same text |
| Substituter.SubstituteRootAsWritten | src/main/java/com/amazon/quivela/checker/visitor/Substituter.java:32-36 | as written, substituting a non-identifier into a lookup whose enclosing expression is the root fails, because the root has no parent to be replaced in |
| Substituter.SubstituteRootCorrected | src/main/java/com/amazon/quivela/checker/visitor/Substituter.java:32-36 | with the root fixed, a variable that is the whole tree becomes its substitute |
| Substituter.SubstituteReplacesRegion | src/main/java/com/amazon/quivela/checker/visitor/Substituter.java:35-36 | the whole enclosing region is replaced, not only the lookup: x mapped to a() turns g(x + 1) into g(a()) |
| Substituter.WalkUnmapped | src/main/java/com/amazon/quivela/checker/visitor/Substituter.java:15-73 | a substitution that binds none of the tree's identifiers leaves the tree unchanged |
| Substituter.RegionUnmapped | src/main/java/com/amazon/quivela/checker/visitor/Substituter.java:15-73 | a region that mentions no bound name comes back unchanged |
| Substituter.PropUnmapped | src/main/java/com/amazon/quivela/checker/visitor/Substituter.java:15-73 | a proposition that mentions no bound name comes back unchanged |
| Substituter.HitRenames | src/main/java/com/amazon/quivela/checker/visitor/Substituter.java:24-40 | under a substitution whose every non-null substitute is an identifier, a lookup and an assignment target are renamed by the corresponding name-to-name map |
| Substituter.WalkRenames | src/main/java/com/amazon/quivela/checker/visitor/Substituter.java:15-73 | a substitution of identifiers only replaces no region: the walk equals the reference renaming `Renamed`, which renames every lookup and assignment target, in arguments, fields, method bodies and env terms alike, and never fails |
| Substituter.SubstituteRenames | src/main/java/com/amazon/quivela/checker/visitor/Substituter.java:15-73 | as above for the entry point, both as written and with the root fixed |
| Substituter.RegionsRename | src/main/java/com/amazon/quivela/checker/visitor/Substituter.java:24-40 | the arguments are renamed one by one |
| Substituter.ParamsRename | src/main/java/com/amazon/quivela/checker/visitor/Substituter.java:15-73 | field initialisers are renamed, field names are kept |
| Substituter.MethodsRename | src/main/java/com/amazon/quivela/checker/visitor/Substituter.java:15-73 | method bodies are renamed, method names and formals are kept |
| Substituter.PropRenames | src/main/java/com/amazon/quivela/checker/visitor/Substituter.java:15-73 | a proposition is renamed through its env terms |
| Substituter.PropArgsRename | src/main/java/com/amazon/quivela/checker/visitor/Substituter.java:15-73 | the arguments of a proposition call are renamed one by one |
| VarSubstituter.Substitute | src/main/java/com/amazon/quivela/checker/visitor/VarSubstituter.java:13-57 | a tree none of whose names is mapped comes back unchanged |
| VarSubstituter.SubstituteLookup | src/main/java/com/amazon/quivela/checker/visitor/VarSubstituter.java:33-43 | at the top level a lookup of a mapped name becomes a lookup of its image, and any other lookup is kept |
| VarSubstituter.SubstituteAssign | src/main/java/com/amazon/quivela/checker/visitor/VarSubstituter.java:45-56 | at the top level an assignment to a mapped name assigns to its image, and its value is substituted in turn |
| VarSubstituter.WalkIdentity | src/main/java/com/amazon/quivela/checker/visitor/VarSubstituter.java:35-37 | with the disable level raised, or with no name of the tree mapped, the walk changes nothing |
| VarSubstituter.PropIdentity | src/main/java/com/amazon/quivela/checker/visitor/VarSubstituter.java:35-37 | the same for a proposition: its env parameters are renamed only when one of their names is mapped |
| VarSubstituter.NewRenamesOnlyParams | src/main/java/com/amazon/quivela/checker/visitor/VarSubstituter.java:22-31 | inside a `new` the parameters are renamed and the method bodies are left untouched |
| VarSubstituter.RenameVarBack | src/main/java/com/amazon/quivela/checker/visitor/VarSubstituter.java:38-42 | renaming a name and then renaming it by the inverse map gives the name back, when it was not itself a target name |
| VarSubstituter.RenameBack | src/main/java/com/amazon/quivela/checker/visitor/VarSubstituter.java:13-57 | renaming with an injective map into fresh names and back with its inverse restores the tree |
| VarSubstituter.RenameBackProp | src/main/java/com/amazon/quivela/checker/visitor/VarSubstituter.java:13-57 | the same round trip holds for propositions |
| IdentifierSubstituter.Ren | src/main/java/com/amazon/quivela/checker/visitor/IdentifierSubstituter.java:21-28 | an identifier with an image is replaced by it; one without is kept |
| IdentifierSubstituter.RenameIds | src/main/java/com/amazon/quivela/checker/visitor/IdentifierSubstituter.java:21-28 | a list of identifier tokens is renamed position by position, keeping its length |
| IdentifierSubstituter.IdsEliminated | src/main/java/com/amazon/quivela/checker/visitor/IdentifierSubstituter.java:21-28 | when no image is itself renamed, no renamed identifier list keeps a mapped name |
| IdentifierSubstituter.FormalsEliminated | src/main/java/com/amazon/quivela/checker/visitor/IdentifierSubstituter.java:21-28 | the same for formal parameter names |
| IdentifierSubstituter.RenameEliminates | src/main/java/com/amazon/quivela/checker/visitor/IdentifierSubstituter.java:13-29 | every identifier token of the renamed tree is unmapped: each mapped token, whether a use or a binding, was replaced |
| IdentifierSubstituter.PropEliminated | src/main/java/com/amazon/quivela/checker/visitor/IdentifierSubstituter.java:13-29 | the same for propositions, including quantifier formals, field names and excepted-field lists |
| IdentifierSubstituter.RenameUnmapped | src/main/java/com/amazon/quivela/checker/visitor/IdentifierSubstituter.java:24-27 | a tree none of whose identifiers is mapped is left as it is |
| IdentifierSubstituter.PropUnmapped | src/main/java/com/amazon/quivela/checker/visitor/IdentifierSubstituter.java:24-27 | a proposition none of whose identifiers is mapped is left as it is |
| IdentifierSubstituter.RenamesBindings | src/main/java/com/amazon/quivela/checker/visitor/IdentifierSubstituter.java:21-28 | renaming ignores scope: in `new (a := 1) { m() { a } }` renaming a to b renames the field as well as its use |
| Rewriter.Push | src/main/java/com/amazon/quivela/checker/visitor/Rewriter.java:52-55 | entering a `new` or a method pushes an empty frame of the given kind on top of the rewriter's scopes |
| Rewriter.Pop | src/main/java/com/amazon/quivela/checker/visitor/Rewriter.java:62-66 | leaving a `new` or a method drops the top frame |
| Rewriter.Declare | src/main/java/com/amazon/quivela/checker/visitor/Rewriter.java:86-89 | a field, formal or assigned name is added to the top frame; with no frame open it fails, as the symbol table dereferences null |
| Rewriter.DeclareFormals | src/main/java/com/amazon/quivela/checker/visitor/Rewriter.java:74-78 | the formals are declared in order; the scope depth, method depth, rewrites and top are kept, and a non-empty list fails exactly when no frame is open |
| Rewriter.WithContext | src/main/java/com/amazon/quivela/checker/visitor/EnvContextReplacer.java:22-35 | every env term gets the context as its new first parameter; literals and lookups are unchanged and nothing else becomes or stops being an env term |
| Rewriter.WithContextArgs | src/main/java/com/amazon/quivela/checker/visitor/EnvContextReplacer.java:22-35 | the arguments of a bounds call are each given the context, keeping their number |
| Rewriter.Match | src/main/java/com/amazon/quivela/checker/visitor/Rewriter.java:91-139 | inside a method without in-method rewriting nothing happens; otherwise the left side is unified with the expression: a unification failure fails, no unifier changes nothing, and a unifier whose instance of the right side and distance substitute cleanly appends exactly one rewrite: at the root the instantiated right side becomes the new top and the rewrite carries the instantiated distance with no context; below the root the expression is replaced by the instantiated right side and the rewrite carries the obligation with a hole at the match as context and the instantiated distance with that context put into its env terms; a failing instance fails |
| Rewriter.Slot | src/main/java/com/amazon/quivela/checker/visitor/Rewriter.java:91-139 | an expression slot is walked and then tried as a match; scopes and method depth come back to their entry values, rewrites are only appended, and with no rewrite the slot is unchanged |
| Rewriter.Walk | src/main/java/com/amazon/quivela/checker/visitor/Rewriter.java:52-89 | a walk leaves the scope depth and method depth as it found them, only appends rewrites, never sets the top, and changes nothing unless it records a rewrite |
| Rewriter.WalkPrimary | src/main/java/com/amazon/quivela/checker/visitor/Rewriter.java:52-84 | the same for calls, invocations, `new` (with its own frame), brackets, maps and assertions |
| Rewriter.Slots | src/main/java/com/amazon/quivela/checker/visitor/Rewriter.java:91-139 | a list of argument slots keeps its length and is unchanged when nothing was rewritten |
| Rewriter.Params | src/main/java/com/amazon/quivela/checker/visitor/Rewriter.java:57-60 | each field is declared after its own initialiser is walked; the frame structure is kept |
| Rewriter.Methods | src/main/java/com/amazon/quivela/checker/visitor/Rewriter.java:68-84 | each method body is walked one method level deeper in a constant frame with its formals, and without in-method rewriting no method body is rewritten |
| Rewriter.WalkProp | src/main/java/com/amazon/quivela/checker/visitor/Rewriter.java:74-78 | env parameters of a proposition are expression slots and quantified formals are declared first; the frame structure is kept |
| Rewriter.SubProps | src/main/java/com/amazon/quivela/checker/visitor/Rewriter.java:16-142 | the child propositions keep their number and are unchanged when nothing was rewritten |
| Rewriter.RewriteAll | src/main/java/com/amazon/quivela/checker/visitor/Rewriter.java:44-50 | an obligation with no rewrite comes back unchanged; otherwise the new top replaces it when the root matched |
| Rewriter.RewriteRoot | src/main/java/com/amazon/quivela/checker/visitor/Rewriter.java:44-50 | after the sub-expressions are walked, the obligation as rewritten so far is tried at the root: with no unifier it and its recorded rewrites are the result; with a unifier, the instantiated right side is the result and one context-free rewrite carrying the instantiated distance follows the recorded ones |
| Rewriter.RewriteLeaf | src/main/java/com/amazon/quivela/checker/visitor/Rewriter.java:44-50 | an obligation that is a single lookup or literal is rewritten only at the root: with no unifier it comes back with no rewrites, with one it becomes the instantiated right side with exactly one context-free rewrite, and a unification failure fails |
| ExprSimplifier.SimplifySlot | src/main/java/com/amazon/quivela/checker/visitor/ExprSimplifier.java:37-47 | the simplified slot is clean (no invocation class, expression label or `new` class identifier left) and is not itself merely parenthesised |
| ExprSimplifier.SimplifySlots | src/main/java/com/amazon/quivela/checker/visitor/ExprSimplifier.java:37-47 | each argument slot is simplified on its own, keeping the number of arguments |
| ExprSimplifier.SimplifyNode | src/main/java/com/amazon/quivela/checker/visitor/ExprSimplifier.java:22-35 | below a node every annotation is erased and it keeps its own shape: it is parenthesised exactly when it was |
| ExprSimplifier.SimplifyProp | src/main/java/com/amazon/quivela/checker/visitor/ExprSimplifier.java:14-48 | the expressions inside a proposition are simplified as slots |
| ExprSimplifier.Simplify | src/main/java/com/amazon/quivela/checker/visitor/ExprSimplifier.java:16-20 | the reported obligation (the top expression when the root was unwrapped) is clean |
| ExprSimplifier.CleanIsFixpoint | src/main/java/com/amazon/quivela/checker/visitor/ExprSimplifier.java:14-48 | a clean expression is its own simplification |
| ExprSimplifier.PropCleanIsFixpoint | src/main/java/com/amazon/quivela/checker/visitor/ExprSimplifier.java:14-48 | a clean proposition is its own simplification |
| ExprSimplifier.SimplifyIdempotent | src/main/java/com/amazon/quivela/checker/visitor/ExprSimplifier.java:14-48 | simplifying twice gives what simplifying once gives |
| ExprSimplifier.SimplifyUnwrapsParens | src/main/java/com/amazon/quivela/checker/visitor/ExprSimplifier.java:27-47 | nested parentheses filling a slot are all unwrapped and their labels dropped, while parentheses inside an operand are kept without their label |
| VariableReferenceCollector.ExtendsSymbols | src/main/java/com/amazon/quivela/checker/visitor/VariableReferenceCollector.java:18-88 | frames that only grew bind every name the old frames bound |
| VariableReferenceCollector.Opened | src/main/java/com/amazon/quivela/checker/visitor/VariableReferenceCollector.java:27-30 | a `new` opens a fresh mutable frame on top, hiding no name bound below |
| VariableReferenceCollector.Refs | src/main/java/com/amazon/quivela/checker/visitor/VariableReferenceCollector.java:76-83 | soundness: every reported name is an identifier of the tree and was unbound when the walk entered it; only the innermost frame grows |
| VariableReferenceCollector.RefsAgree | src/main/java/com/amazon/quivela/checker/visitor/VariableReferenceCollector.java:18-88 | for every tree and every table, the collector fails exactly when the flat scoping semantics does, with the same error, and otherwise reports exactly the names that semantics finds unbound at their lookup and leaves exactly the names it leaves bound |
| VariableReferenceCollector.PairAgree | src/main/java/com/amazon/quivela/checker/visitor/VariableReferenceCollector.java:18-88 | two children walked left to right agree with the flat semantics |
| VariableReferenceCollector.TripleAgree | src/main/java/com/amazon/quivela/checker/visitor/VariableReferenceCollector.java:18-88 | three children walked left to right agree with the flat semantics |
| VariableReferenceCollector.InnerAgree | src/main/java/com/amazon/quivela/checker/visitor/VariableReferenceCollector.java:76-83 | map lookups and updates, conditionals, negations, parentheses, references, conversions and assignments agree with the flat semantics |
| VariableReferenceCollector.NestedAgree | src/main/java/com/amazon/quivela/checker/visitor/VariableReferenceCollector.java:27-35 | a `new` is walked in a frame of its own that is dropped afterwards, so its fields and locals are not bound after it; calls, invocations and assertions agree with the flat semantics |
| VariableReferenceCollector.ArgsAgree | src/main/java/com/amazon/quivela/checker/visitor/VariableReferenceCollector.java:18-88 | arguments walked in order agree with the flat semantics |
| VariableReferenceCollector.ParamsAgree | src/main/java/com/amazon/quivela/checker/visitor/VariableReferenceCollector.java:37-52 | each parameter value sees its own assignment targets, and the field is bound for the parameters after it and for the methods, exactly as the flat semantics says |
| VariableReferenceCollector.FormalsAgree | src/main/java/com/amazon/quivela/checker/visitor/VariableReferenceCollector.java:63-69 | binding the formals fails exactly when extracting one fails or there is no frame, with the same error, and otherwise adds exactly the formal names |
| VariableReferenceCollector.MethodsAgree | src/main/java/com/amazon/quivela/checker/visitor/VariableReferenceCollector.java:54-74 | each method body sees its assignment targets, its formals and the fields; a method without a body raises; all as the flat semantics says |
| VariableReferenceCollector.PropAgree | src/main/java/com/amazon/quivela/checker/visitor/VariableReferenceCollector.java:63-83 | in a proposition only lookups inside env terms are candidates; a quantifier binds its formals in the enclosing frame, where they stay bound; as the flat semantics says |
| VariableReferenceCollector.ChildrenAgree | src/main/java/com/amazon/quivela/checker/visitor/VariableReferenceCollector.java:18-88 | the sub-propositions walked in order agree with the flat semantics |
| VariableReferenceCollector.BoundsAgree | src/main/java/com/amazon/quivela/checker/visitor/VariableReferenceCollector.java:76-83 | in a bounds term only the expressions inside env terms are walked, as the flat semantics says |
| VariableReferenceCollector.BoundsPairAgree | src/main/java/com/amazon/quivela/checker/visitor/VariableReferenceCollector.java:76-83 | the two sides of a bounds operator agree with the flat semantics |
| VariableReferenceCollector.BoundsArgsAgree | src/main/java/com/amazon/quivela/checker/visitor/VariableReferenceCollector.java:76-83 | the arguments of a bounds function agree with the flat semantics |
| VariableReferenceCollector.CollectIsFree | src/main/java/com/amazon/quivela/checker/visitor/VariableReferenceCollector.java:23-25 | `collect` starts with no frame: it reports exactly the names the flat semantics finds free from nothing bound, and fails exactly when that does, with the same error |
| VariableReferenceCollector.CollectBoundsIsFree | src/main/java/com/amazon/quivela/checker/visitor/VariableReferenceCollector.java:23-25 | the same for a bounds term |
| VariableReferenceCollector.FormalNames | src/main/java/com/amazon/quivela/checker/visitor/VariableReferenceCollector.java:63-69 | the names bound by a formal list are exactly its ids, in any frame that exists |
| VariableReferenceCollector.UnsupportedFormalFails | src/main/java/com/amazon/quivela/checker/visitor/VariableReferenceCollector.java:63-69 | a formal whose annotation the extractor refuses makes the binding fail |
| VariableReferenceCollector.BindingFreeRefs | src/main/java/com/amazon/quivela/checker/visitor/VariableReferenceCollector.java:76-83 | in a tree with no `new` and no assertion, a looked-up name is reported iff no frame binds it, and the frames are unchanged |
| VariableReferenceCollector.BindingFreeArgs | src/main/java/com/amazon/quivela/checker/visitor/VariableReferenceCollector.java:76-83 | the same for a list of binding-free arguments |
| VariableReferenceCollector.FieldBoundInMethods | src/main/java/com/amazon/quivela/checker/visitor/VariableReferenceCollector.java:44-61 | a field is bound for the methods: `new (a := 1) { m() { a } }` reports nothing |
| VariableReferenceCollector.UnboundReported | src/main/java/com/amazon/quivela/checker/visitor/VariableReferenceCollector.java:76-83 | a name bound nowhere is reported: `new (a := b) {}` reports b |
| VariableReferenceCollector.MissingBodyFails | src/main/java/com/amazon/quivela/checker/visitor/VariableReferenceCollector.java:55-61 | a method without a body cannot be walked |
| VariableReferenceCollector.UnsupportedMethodFormalFails | src/main/java/com/amazon/quivela/checker/visitor/VariableReferenceCollector.java:63-69 | a method formal with an unsupported annotation fails the walk with the extractor's "unsupported type expression" error |
| VariableReferenceCollector.TopLevelQuantifierFails | src/main/java/com/amazon/quivela/checker/visitor/VariableReferenceCollector.java:63-69 | a quantifier at the top of a walk has no frame to bind its formals in and fails |
| VariableReferenceCollector.BoundsLookupsNotReported | src/main/java/com/amazon/quivela/checker/visitor/VariableReferenceCollector.java:76-83 | a bounds lookup is not an expression lookup: `x * eps` reports nothing, while x inside an env term is reported |
| LocalVariableDeclCollector.DeclareAll | src/main/java/com/amazon/quivela/checker/visitor/LocalVariableDeclCollector.java:21-27 | only the innermost frame can change: the number of frames, the outer frames and the innermost frame's kind are kept |
| LocalVariableDeclCollector.DeclareAllEffect | src/main/java/com/amazon/quivela/checker/visitor/LocalVariableDeclCollector.java:21-27 | the innermost frame grows by exactly the targets no frame declared, each typed Opaque; names declared before keep their type; afterwards a name is referenceable iff it was before or is a target |
| LocalVariableDeclCollector.Collect | src/main/java/com/amazon/quivela/checker/visitor/LocalVariableDeclCollector.java:13-28 | running the collector over an expression leaves the live table equal to the declaration of its assignment targets in traversal order, with the same frame objects |
| IdentifierAndTypeExtractor.SuffixType | src/main/java/com/amazon/quivela/checker/visitor/IdentifierAndTypeExtractor.java:47-77 | the five known type expressions denote int, bits, real, map and expr; any other raises "unsupported type expression" |
| IdentifierAndTypeExtractor.SuffixTypeRoundTrip | src/main/java/com/amazon/quivela/checker/visitor/IdentifierAndTypeExtractor.java:55-77 | type expressions and non-opaque types correspond one to one, and no suffix denotes Opaque |
| IdentifierAndTypeExtractor.Extract | src/main/java/com/amazon/quivela/checker/visitor/IdentifierAndTypeExtractor.java:37-52 | the identifier is the parameter's name; the type is absent iff there is no suffix and otherwise is what the suffix denotes; only an unsupported suffix fails |
| FormalParamsCollector.Collected | src/main/java/com/amazon/quivela/checker/visitor/FormalParamsCollector.java:35-49 | the id and type lists run in parallel in declaration order, with one entry per parameter equal to that parameter's extraction; the collection fails iff some parameter's extraction fails |
| FormalParamsCollector.CollectIds | src/main/java/com/amazon/quivela/checker/visitor/FormalParamsCollector.java:20-24 | `collect` returns the parameter names in order, one per parameter, and fails exactly when some annotation cannot be extracted |
| FormalParamsCollector.CollectedIds | src/main/java/com/amazon/quivela/checker/visitor/FormalParamsCollector.java:20-24 | the ids of a successful collection are the names `collect` returns |
| FormalParamsCollector.CollectedPrefixFails | src/main/java/com/amazon/quivela/checker/visitor/FormalParamsCollector.java:35-42 | the first parameter whose extraction fails decides the error |
| FormalParamsCollector.Collect | src/main/java/com/amazon/quivela/checker/visitor/FormalParamsCollector.java:35-49 | the append loop computes exactly the collected lists, or the first error |
| BoundsExprConverter.ToExpr | src/main/java/com/amazon/quivela/checker/visitor/BoundsExprConverter.java:18-70 | a bounds term converts iff it is a literal or a lookup under the wrapper chain, to an expression with the same text; any other node raises "Conversion of … not implemented." naming its class |
| BoundsExprConverter.ToExprRoundTrip | src/main/java/com/amazon/quivela/checker/visitor/BoundsExprConverter.java:35-70 | converting the result back to a bounds term at the sum level gives the term that was converted |
| BoundsExprConverter.FromExprRoundTrip | src/main/java/com/amazon/quivela/checker/visitor/BoundsExprConverter.java:62-70 | a lookup or a literal converted to a bounds term converts back to itself |
| BoundsExprConverter.Converter.constructor | src/main/java/com/amazon/quivela/checker/visitor/BoundsExprConverter.java:16 | a new converter has an empty stack |
| BoundsExprConverter.Converter.Apply | src/main/java/com/amazon/quivela/checker/visitor/BoundsExprConverter.java:35-70 | a convertible term pushes its expression; any other term raises and leaves the stack as it was |
| BoundsExprConverter.Converter.GetExpr | src/main/java/com/amazon/quivela/checker/visitor/BoundsExprConverter.java:24-33 | pops and returns the top of the stack; popping an empty stack raises |
| BoundsExprConverter.Convert | src/main/java/com/amazon/quivela/checker/visitor/BoundsExprConverter.java:14-71 | a fresh converter applied to a term and then asked for its expression gives exactly the conversion of the term |
| Util.EqualsNullWildcard | src/main/java/com/amazon/quivela/checker/Util.java:280-289 | null equals every node, so equality is not transitive; two non-null nodes are equal iff their printed texts are |
| Util.EqualsSymmetric | src/main/java/com/amazon/quivela/checker/Util.java:280-289 | equality of nodes is symmetric |
| Util.AddBounds | src/main/java/com/amazon/quivela/checker/Util.java:299-301 | the sum prints as `(e1) + (e2)` |
| Util.SubtractBounds | src/main/java/com/amazon/quivela/checker/Util.java:302-304 | the difference prints as `(e1) - (e2)` |
| Util.MultiplyBounds | src/main/java/com/amazon/quivela/checker/Util.java:319-321 | the product prints as `(e1) * (e2)` |
| Util.ZeroBounds | src/main/java/com/amazon/quivela/checker/Util.java:295-297 | the zero bound prints as the single token 0 |
| Util.IsZeroShape | src/main/java/com/amazon/quivela/checker/Util.java:276-278 | a bounds term is zero iff it prints as the single token 0 |
| Util.BuiltBoundsNonZero | src/main/java/com/amazon/quivela/checker/Util.java:276-304 | no sum, difference or product built by the bounds builders is zero |
| Util.GetPrimaryOfToPrimary | src/main/java/com/amazon/quivela/checker/Util.java:20-60 | the primary of a toPrimaryExpr result is that result itself, and an expression has a primary exactly when toPrimaryExpr leaves it unchanged |
| Util.ToPrimaryExpr | src/main/java/com/amazon/quivela/checker/Util.java:131-135 | the result is a primary: the expression itself when it is one, otherwise the expression in unlabelled parentheses |
| Util.GetFuncExprOfToPrimary | src/main/java/com/amazon/quivela/checker/Util.java:306-317 | getFuncExpr finds the same call (or none) after toPrimaryExpr as before |
| Util.ToNewExprOfToPrimary | src/main/java/com/amazon/quivela/checker/Util.java:95-105 | toNewExpr finds the same object (or none) after toPrimaryExpr as before |
| Util.ToInvokeExprOfToPrimary | src/main/java/com/amazon/quivela/checker/Util.java:107-117 | toInvokeExpr finds the same invocation (or none) after toPrimaryExpr as before |
| Util.ToQuantPrimaryOfToPrimary | src/main/java/com/amazon/quivela/checker/Util.java:119-135 | a non-primary expression wrapped by toPrimaryExpr is found by toQuantPrimaryExpr as exactly the unlabelled parenthesis around it; when none is found the wrapping changed nothing |
| Util.DefaultPrimaryExpr | src/main/java/com/amazon/quivela/checker/Util.java:137-139 | the default expression is a primary printing as the single token 0 |
| Util.AssignExpr | src/main/java/com/amazon/quivela/checker/Util.java:211-214 | `id := primary` is an assignment printing as the name, `:=` and the primary |
| Util.ToSequence | src/main/java/com/amazon/quivela/checker/Util.java:216-232 | no statements give the literal 0, one statement gives itself, and more give a sequence headed by the first |
| Util.ToPrimaryExprFits | src/main/java/com/amazon/quivela/checker/Util.java:131-135 | wrapping a well-formed expression gives a well-formed primary |
| Util.ToSequenceStatements | src/main/java/com/amazon/quivela/checker/Util.java:216-232 | reading the statements of the sequence back gives the list it was built from |
| Util.NegateProp | src/main/java/com/amazon/quivela/checker/Util.java:350-352 | the negation prints as `!(p)` |
| Util.TermToExprOwnLevel | src/main/java/com/amazon/quivela/checker/Util.java:141-162 | an expression seen at its own level converts back to itself unless that level is the product level, a toPrimaryExpr result at the primary level always converts back, and a product-level node raises |
| Util.ExprToBoundsNodeText | src/main/java/com/amazon/quivela/checker/Util.java:62-81 | only lookups, literals and sums of them convert, and the converted bounds term prints the same tokens as the expression |
| Util.TermToBounds | src/main/java/com/amazon/quivela/checker/Util.java:83-93 | only a node converted at the sum level becomes a complete bounds expression |
| Util.PrimaryLookupNotBounds | src/main/java/com/amazon/quivela/checker/Util.java:62-93 | a lookup converts to a complete bounds expression when seen at the sum level and raises when seen at the product or primary level |
| Util.FunctionReturnTypeAnnotated | src/main/java/com/amazon/quivela/checker/Util.java:354-367 | without an annotation the return type is the parameters' default; an annotated return type is never Opaque; annotating with a type's annotation gives back that type |
| Util.WithDefault | src/main/java/com/amazon/quivela/checker/Util.java:376-382 | each null collected type is replaced by the default and every other type is kept, position by position |
| Util.ParameterTypes | src/main/java/com/amazon/quivela/checker/Util.java:369-387 | one type per formal parameter, failing exactly when the collection of the parameters fails |
| Util.ParameterTypeAt | src/main/java/com/amazon/quivela/checker/Util.java:369-387 | an annotated parameter has the type its annotation denotes, and an unannotated one has the default (Bitstring for pure functions, Opaque otherwise) |
| Util.FunctionParameterTypes | src/main/java/com/amazon/quivela/checker/Util.java:369-387 | the method returns exactly the parameter types (or the collector's error): each annotated formal's type, and the default type elsewhere |
| Util.WithDefaultLoop | src/main/java/com/amazon/quivela/checker/Util.java:378-383 | the in-place loop turns each missing type into the default and keeps every other, position by position |
| Unfold.Record | src/main/java/com/amazon/quivela/checker/tactic/Unfold.java:173-191 | a replacement of x adds one to x's count, leaves every other count alone, adds x to the counted names and marks the use conditional when it is inside a guard |
| Unfold.Sub | src/main/java/com/amazon/quivela/checker/tactic/Unfold.java:122-229 | the counting substituter fails only with an internal error, namely on a logical operator other than `\|`, `&` and `;` |
| Unfold.SubList | src/main/java/com/amazon/quivela/checker/tactic/Unfold.java:122-229 | the substituter over a list of sub-expressions keeps the list's length and fails only internally |
| Unfold.SubProp | src/main/java/com/amazon/quivela/checker/tactic/Unfold.java:122-229 | the substituter over a proposition fails only internally |
| Unfold.SubEnv | src/main/java/com/amazon/quivela/checker/tactic/Unfold.java:122-229 | the substituter over the parameters of an environment term keeps their number and fails only internally |
| Unfold.SubProps | src/main/java/com/amazon/quivela/checker/tactic/Unfold.java:122-229 | the substituter over sub-propositions keeps their number and fails only internally |
| Unfold.SubIdentity | src/main/java/com/amazon/quivela/checker/tactic/Unfold.java:173-191 | where substitution is disabled, or no name to be replaced occurs, the expression is unchanged; a disabled walk records no use |
| Unfold.NewIdentity | src/main/java/com/amazon/quivela/checker/tactic/Unfold.java:162-171 | the same for a `new` expression, whose method bodies are walked one disable level up |
| Unfold.OtherIdentity | src/main/java/com/amazon/quivela/checker/tactic/Unfold.java:122-229 | the same for every other kind of expression |
| Unfold.ListIdentity | src/main/java/com/amazon/quivela/checker/tactic/Unfold.java:122-229 | the same for a list of sub-expressions |
| Unfold.PropIdentity | src/main/java/com/amazon/quivela/checker/tactic/Unfold.java:122-229 | the same for a proposition, including the use record under a disabled walk |
| Unfold.EnvIdentity | src/main/java/com/amazon/quivela/checker/tactic/Unfold.java:122-229 | the same for the parameters of an environment term |
| Unfold.PropsIdentity | src/main/java/com/amazon/quivela/checker/tactic/Unfold.java:122-229 | the same for a list of sub-propositions |
| Unfold.SubUses | src/main/java/com/amazon/quivela/checker/tactic/Unfold.java:134-191 | with substitution enabled, each name to be replaced is counted exactly as often as it occurs outside method bodies of `new`, and the walk is marked conditional exactly when such an occurrence is in the right operand of `\|` or `&` |
| Unfold.NewUses | src/main/java/com/amazon/quivela/checker/tactic/Unfold.java:162-191 | the same counting and guarding for a `new` expression: occurrences inside its method bodies are not counted |
| Unfold.OtherUses | src/main/java/com/amazon/quivela/checker/tactic/Unfold.java:173-191 | the same counting and guarding for every other kind of expression |
| Unfold.ListUses | src/main/java/com/amazon/quivela/checker/tactic/Unfold.java:173-191 | the counts over a list are the sum of the occurrences in its members |
| Unfold.PropUses | src/main/java/com/amazon/quivela/checker/tactic/Unfold.java:173-191 | the counts over a proposition are its occurrences |
| Unfold.EnvUses | src/main/java/com/amazon/quivela/checker/tactic/Unfold.java:173-191 | the counts over environment parameters are their occurrences |
| Unfold.PropsUses | src/main/java/com/amazon/quivela/checker/tactic/Unfold.java:173-191 | the counts over sub-propositions are their occurrences |
| Unfold.Arg | src/main/java/com/amazon/quivela/checker/tactic/Unfold.java:92-104 | the i-th actual wrapped as a primary expression, or the default primary when the call has fewer actuals than formals |
| Unfold.SubsMap | src/main/java/com/amazon/quivela/checker/tactic/Unfold.java:96-104 | the substitution map has exactly the formals as keys |
| Unfold.SubsMapAt | src/main/java/com/amazon/quivela/checker/tactic/Unfold.java:96-104 | the last occurrence of a formal maps to the actual at its position |
| Unfold.BuildSubs | src/main/java/com/amazon/quivela/checker/tactic/Unfold.java:96-104 | the loop builds exactly the substitution map |
| Unfold.MaxNumSubs | src/main/java/com/amazon/quivela/checker/tactic/Unfold.java:193-204 | the result is the largest count, or 0 when nothing was counted |
| Unfold.MinNumSubs | src/main/java/com/amazon/quivela/checker/tactic/Unfold.java:206-225 | the result is the smallest count, or 0 when nothing was counted |
| Unfold.MaxMinOnce | src/main/java/com/amazon/quivela/checker/tactic/Unfold.java:112-114 | maximum and minimum are both 1 exactly when something was counted and every counted name was counted once |
| Unfold.Accept | src/main/java/com/amazon/quivela/checker/tactic/Unfold.java:112-114 | the two-loop acceptance test computes the acceptance predicate, as written or corrected |
| Unfold.SubParams | src/main/java/com/amazon/quivela/checker/tactic/Unfold.java:83-118 | an unfolding is produced only for a function that has a body |
| Unfold.CorrectedAcceptance | src/main/java/com/amazon/quivela/checker/tactic/Unfold.java:112-114 | corrected, the unfolding is accepted exactly when there are no formals or every formal occurs once where substitution reaches it and no occurrence is guarded |
| Unfold.AsWrittenAcceptance | src/main/java/com/amazon/quivela/checker/tactic/Unfold.java:112-114 | as written, the unfolding is accepted exactly when there are no formals or some formal is used, none is used twice and none is guarded; an unused formal does not block it |
| Unfold.Call | src/main/java/com/amazon/quivela/checker/tactic/Unfold.java:65-81 | a call of a missing function records "function does not exist" and stays; otherwise no error is recorded |
| Unfold.UnfoldList | src/main/java/com/amazon/quivela/checker/tactic/Unfold.java:57-81 | unfolding a list of sub-expressions keeps its length |
| Unfold.UnfoldEnv | src/main/java/com/amazon/quivela/checker/tactic/Unfold.java:57-81 | unfolding environment parameters keeps their number |
| Unfold.UnfoldProps | src/main/java/com/amazon/quivela/checker/tactic/Unfold.java:57-81 | unfolding sub-propositions keeps their number |
| Unfold.Transform | src/main/java/com/amazon/quivela/checker/tactic/Unfold.java:41-55 | the result is the unfolded expression when no error was recorded, and fails with the first recorded check error otherwise |
| Unfold.UnfoldUnselected | src/main/java/com/amazon/quivela/checker/tactic/Unfold.java:68-70 | an expression that calls none of the selected functions is returned unchanged, with no error |
| Unfold.ListUnselected | src/main/java/com/amazon/quivela/checker/tactic/Unfold.java:68-70 | the same for a list of sub-expressions |
| Unfold.PropUnselected | src/main/java/com/amazon/quivela/checker/tactic/Unfold.java:68-70 | the same for a proposition |
| Unfold.EnvUnselected | src/main/java/com/amazon/quivela/checker/tactic/Unfold.java:68-70 | the same for environment parameters |
| Unfold.PropsUnselected | src/main/java/com/amazon/quivela/checker/tactic/Unfold.java:68-70 | the same for sub-propositions |
| Unfold.TransformCall | src/main/java/com/amazon/quivela/checker/tactic/Unfold.java:65-81 | a selected call with unselected arguments becomes the substituted body as a primary when accepted, and stays otherwise |
| Unfold.UnfoldsSingleUse | src/main/java/com/amazon/quivela/checker/tactic/Unfold.java:83-118 | f(x) := x + 1 unfolds f(a) to (a + 1) |
| Unfold.SingleUseSubParams | src/main/java/com/amazon/quivela/checker/tactic/Unfold.java:83-118 | substituting a for x in x + 1 is accepted |
| Unfold.SingleUseSub | src/main/java/com/amazon/quivela/checker/tactic/Unfold.java:173-191 | substituting a for x in x + 1 gives a + 1 and counts x once |
| Unfold.KeepsDoubleUse | src/main/java/com/amazon/quivela/checker/tactic/Unfold.java:112-114 | f(x) := x * x is not unfolded |
| Unfold.DoubleUseSub | src/main/java/com/amazon/quivela/checker/tactic/Unfold.java:173-191 | substituting into x * x counts x twice |
| Unfold.KeepsConditionalUse | src/main/java/com/amazon/quivela/checker/tactic/Unfold.java:147-153 | f(x) := c & x is not unfolded, since x is only used when c holds |
| Unfold.ReportsMissingFunction | src/main/java/com/amazon/quivela/checker/tactic/Unfold.java:72-75 | a call of an undeclared function fails with "function does not exist" |
| Unfold.UnusedFormalAccepted | src/main/java/com/amazon/quivela/checker/tactic/Unfold.java:112-114 | as written, f(x, y) := x unfolds f(a, b) to a and b is lost; corrected, the call stays |
| Unfold.UnusedFormalSubParams | src/main/java/com/amazon/quivela/checker/tactic/Unfold.java:112-114 | as written, the body x with actuals (a, b) is accepted; corrected, it is refused |
| Unfold.PlainFormals | src/main/java/com/amazon/quivela/checker/tactic/Unfold.java:85-90 | formals without annotations are collected as their names |
| Inline.FreshId | src/main/java/com/amazon/quivela/checker/tactic/Inline.java:157-173 | the name is not in use; the first supplied id is consumed whenever there is one, and returned when it is unused; otherwise the name is the smallest unused prefix followed by a number |
| Inline.CreateFreshId | src/main/java/com/amazon/quivela/checker/tactic/Inline.java:157-173 | the procedure that removes the head of the supplied ids and then counts up from 0 returns the fresh name and the remaining ids |
| Inline.Allocate | src/main/java/com/amazon/quivela/checker/tactic/Inline.java:104-120 | each inner parameter gets a new member name, keeps its value, and gets a name that is distinct from the others, from the outer members and from the inner methods' locals |
| Inline.AllocateRenames | src/main/java/com/amazon/quivela/checker/tactic/Inline.java:113-114 | the member renaming maps an inner parameter to the name allocated for its last occurrence |
| Inline.FirstIndexOf | src/main/java/com/amazon/quivela/checker/tactic/Inline.java:94-102 | the position of the first outer parameter with the assigned id, or the length when there is none |
| Inline.MethodMap | src/main/java/com/amazon/quivela/checker/visitor/MethodsCollector.java:23-32 | every method is in the map under its own name, and a later definition of a name replaces an earlier one |
| Inline.LocalNames | src/main/java/com/amazon/quivela/checker/tactic/Inline.java:266-271 | every inner local gets a fresh local, distinct from the others and from every name already in use |
| Inline.ArgumentValue | src/main/java/com/amazon/quivela/checker/tactic/Inline.java:278-286 | the value assigned to a formal is a primary expression; as written, the formal just past the last argument fails with an index error |
| Inline.Assignments | src/main/java/com/amazon/quivela/checker/tactic/Inline.java:273-286 | when it succeeds there is one assignment per formal |
| Inline.CorrectedAssignments | src/main/java/com/amazon/quivela/checker/tactic/Inline.java:278-286 | corrected, every formal is assigned the argument at its position, or 0 when there is none |
| Inline.AssignmentsList | src/main/java/com/amazon/quivela/checker/tactic/Inline.java:273-286 | corrected, the assignments are exactly the expected list of argument assignments |
| Inline.AsWrittenAssignments | src/main/java/com/amazon/quivela/checker/tactic/Inline.java:282 | as written, the assignments succeed exactly when no formal lacks an argument, and then they equal the corrected ones |
| Inline.ShortAssignmentsFail | src/main/java/com/amazon/quivela/checker/tactic/Inline.java:282-283 | as written, a call with fewer arguments than formals fails with "Index n out of bounds for length n" |
| Inline.InlineCall | src/main/java/com/amazon/quivela/checker/tactic/Inline.java:241-246 | an invocation of a method the inner object does not have fails with "method of invocation target class does not exist" |
| Inline.ReplacementStatements | src/main/java/com/amazon/quivela/checker/tactic/Inline.java:293-302 | read back, the replacement is the assignments followed by the renamed body |
| Inline.MIWalk | src/main/java/com/amazon/quivela/checker/tactic/Inline.java:197-206 | a nested `new` keeps its class and its method bodies, which the inliner does not enter |
| Inline.MIList | src/main/java/com/amazon/quivela/checker/tactic/Inline.java:175-306 | the method inliner keeps the number of sub-expressions |
| Inline.MIEnv | src/main/java/com/amazon/quivela/checker/tactic/Inline.java:175-306 | the method inliner keeps the number of environment parameters |
| Inline.MIProps | src/main/java/com/amazon/quivela/checker/tactic/Inline.java:175-306 | the method inliner keeps the number of sub-propositions |
| Inline.InlineMethod | src/main/java/com/amazon/quivela/checker/tactic/Inline.java:208-227 | an outer method keeps its name, its formals, and whether it has a body |
| Inline.InlineMethods | src/main/java/com/amazon/quivela/checker/tactic/Inline.java:126-130 | the outer methods keep their number, names, formals, and whether each has a body |
| Inline.DoInline | src/main/java/com/amazon/quivela/checker/tactic/Inline.java:67-135 | the outer parameters become the spliced list and the outer methods keep their number; the supplied ids left are those the allocation left |
| Inline.SpliceReplacesParameter | src/main/java/com/amazon/quivela/checker/tactic/Inline.java:93-120 | the inlined parameter is replaced at its position by the inner parameters in order and with their values, under distinct names that no other outer parameter has and no inner method declares as a local |
| Inline.SpliceKeepsNamesDistinct | src/main/java/com/amazon/quivela/checker/tactic/Inline.java:93-131 | when the outer parameter names are distinct, they stay distinct after splicing |
| Inline.TransformNoSite | src/main/java/com/amazon/quivela/checker/tactic/Inline.java:29-35 | an expression with no object inside a constructor parameter comes back unchanged |
| Inline.Walk | src/main/java/com/amazon/quivela/checker/tactic/Inline.java:37-65 | the walk stays inside or outside a constructor parameter as it started, and an inner object already found stays the found one |
| Inline.WalkNew | src/main/java/com/amazon/quivela/checker/tactic/Inline.java:60-65 | the same for a `new` expression, where a second inner object in one parameter is refused |
| Inline.WalkNewParams | src/main/java/com/amazon/quivela/checker/tactic/Inline.java:50-58 | walking a `new`'s parameters keeps their number; the parameters after the one whose object is inlined are left as they are (Inline.InlineFires) |
| Inline.WalkList | src/main/java/com/amazon/quivela/checker/tactic/Inline.java:37-65 | walking a list keeps its length and the context as above |
| Inline.WalkProp | src/main/java/com/amazon/quivela/checker/tactic/Inline.java:37-65 | walking a proposition keeps the context as above |
| Inline.WalkEnv | src/main/java/com/amazon/quivela/checker/tactic/Inline.java:37-65 | walking environment parameters keeps their number and the context |
| Inline.WalkProps | src/main/java/com/amazon/quivela/checker/tactic/Inline.java:37-65 | walking sub-propositions keeps their number and the context |
| Inline.CallNamesFresh | src/main/java/com/amazon/quivela/checker/tactic/Inline.java:261-271 | the fresh locals of an invocation are distinct and clash with neither the outer method's variables nor the outer members |
| Inline.InlineCallRewrites | src/main/java/com/amazon/quivela/checker/tactic/Inline.java:229-302 | corrected, an invocation of an inner method with a body is rewritten to the assignments followed by the renamed body |
| Inline.ShortCallFails | src/main/java/com/amazon/quivela/checker/tactic/Inline.java:278-286 | as written, an invocation with fewer arguments than formals fails with an index error |
| Inline.InlinedCallStatements | src/main/java/com/amazon/quivela/checker/tactic/Inline.java:273-302 | corrected, the inlined invocation assigns each argument, or 0 when missing, to its formal's fresh local, then runs the body with locals and members renamed |
| Inline.ShortCallAsWritten | src/main/java/com/amazon/quivela/checker/tactic/Inline.java:282 | as written, a.f() against f(y){y} fails with "Index 0 out of bounds for length 0" |
| Inline.ShortCallCorrected | src/main/java/com/amazon/quivela/checker/tactic/Inline.java:278-286 | corrected, a.f() against f(y){y} becomes (l_0 := 0; l_0) |
| Inline.ShortCallNames | src/main/java/com/amazon/quivela/checker/tactic/Inline.java:266-286 | the fresh local of y is l_0, and the one assignment sets it to 0 |
| Inline.ShortCallReplacement | src/main/java/com/amazon/quivela/checker/tactic/Inline.java:293-302 | the replacement for that call is the assignment followed by the renamed body l_0 |
| Inline.ShortCallCollected | src/main/java/com/amazon/quivela/checker/tactic/Inline.java:248-259 | f(y){y} has the formal y and the local y |
| Inline.ShortCallLocals | src/main/java/com/amazon/quivela/checker/tactic/Inline.java:266-271 | the local y gets the fresh local l_0 |
| Inline.OutOfBoundsZero | src/main/java/com/amazon/quivela/checker/tactic/Inline.java:282-283 | the index error for position 0 of an empty list reads "Index 0 out of bounds for length 0" |
| Inline.MissingMethodRefused | src/main/java/com/amazon/quivela/checker/tactic/Inline.java:241-246 | an invocation naming no inner method is refused, whatever its arguments |
| Inline.MIUntouched | src/main/java/com/amazon/quivela/checker/tactic/Inline.java:197-239 | an expression with no invocation on the inlined parameter, in the parts the method inliner walks, is left unchanged |
| Inline.MIListUntouched | src/main/java/com/amazon/quivela/checker/tactic/Inline.java:235-239 | the same for a list of sub-expressions |
| Inline.MIPropUntouched | src/main/java/com/amazon/quivela/checker/tactic/Inline.java:235-239 | the same for a proposition |
| Inline.MIEnvUntouched | src/main/java/com/amazon/quivela/checker/tactic/Inline.java:235-239 | the same for environment parameters |
| Inline.MIPropsUntouched | src/main/java/com/amazon/quivela/checker/tactic/Inline.java:235-239 | the same for sub-propositions |
| Inline.WalkNoNew | src/main/java/com/amazon/quivela/checker/tactic/Inline.java:50-65 | an expression without objects is unchanged in any position and consumes no supplied id |
| Inline.ListNoNew | src/main/java/com/amazon/quivela/checker/tactic/Inline.java:50-65 | the same for a list |
| Inline.PropNoNew | src/main/java/com/amazon/quivela/checker/tactic/Inline.java:50-65 | the same for a proposition |
| Inline.EnvNoNew | src/main/java/com/amazon/quivela/checker/tactic/Inline.java:50-65 | the same for environment parameters |
| Inline.PropsNoNew | src/main/java/com/amazon/quivela/checker/tactic/Inline.java:50-65 | the same for sub-propositions |
| Inline.WalkNoSite | src/main/java/com/amazon/quivela/checker/tactic/Inline.java:60-65 | without an object inside a constructor parameter the walk changes nothing and consumes no supplied id |
| Inline.NewNoSite | src/main/java/com/amazon/quivela/checker/tactic/Inline.java:60-65 | the same for a `new` whose parameters hold no object |
| Inline.ParamsNoNew | src/main/java/com/amazon/quivela/checker/tactic/Inline.java:50-58 | parameters without objects are walked unchanged and find no inner object |
| Inline.ListNoSite | src/main/java/com/amazon/quivela/checker/tactic/Inline.java:60-65 | the same for a list |
| Inline.PropNoSite | src/main/java/com/amazon/quivela/checker/tactic/Inline.java:60-65 | the same for a proposition |
| Inline.EnvNoSite | src/main/java/com/amazon/quivela/checker/tactic/Inline.java:60-65 | the same for environment parameters |
| Inline.PropsNoSite | src/main/java/com/amazon/quivela/checker/tactic/Inline.java:60-65 | the same for sub-propositions |
| Inline.InlineMethodsUntouched | src/main/java/com/amazon/quivela/checker/tactic/Inline.java:126-130 | outer methods that never invoke a method on the inlined parameter come back as they were |
| Inline.DoInlineUntouched | src/main/java/com/amazon/quivela/checker/tactic/Inline.java:67-135 | when no outer method invokes anything on the inlined parameter, doInline only splices the parameters and keeps the outer methods |
| Inline.InnerFound | src/main/java/com/amazon/quivela/checker/tactic/Inline.java:60-65 | an object free of nested objects, walked inside a constructor parameter, becomes the inner object found there and comes back unchanged |
| Inline.InlineFires | src/main/java/com/amazon/quivela/checker/tactic/Inline.java:50-133 | walking the parameters of a `new` finds the object in the first parameter that holds one (free of nested objects) and splices it with doInline, consuming the ids doInline consumes; the parameters after it are not walked, so an object among them stays in place |
| Inline.EarlyNoNew | src/main/java/com/amazon/quivela/checker/tactic/Inline.java:50-58 | parameters without objects are walked unchanged and the walk continues with the parameters after them as if they had been passed over |
| Inline.SpliceAtFirst | src/main/java/com/amazon/quivela/checker/tactic/Inline.java:93-102 | the first parameter with the inlined id is at or before it, and splicing there cuts the list in two around it |
| Checker.NewObligation | src/main/java/com/amazon/quivela/checker/Checker.java:91-96 | a new equivalence obligation starts from the fact's left and right expressions with nothing charged |
| Checker.Build | src/main/java/com/amazon/quivela/checker/Checker.java:133-135 | building a subgoal's builder gives the obligation for the equivalence it collected |
| Checker.Initial | src/main/java/com/amazon/quivela/checker/Checker.java:36-39 | the checker starts at top level: one constant frame, no obligations, no pending facts |
| Checker.PeekEquiv | src/main/java/com/amazon/quivela/checker/Checker.java:362-370 | the top obligation is returned exactly when it is an equivalence; otherwise "Not an equivalence obligation" |
| Checker.PeekBuilder | src/main/java/com/amazon/quivela/checker/Checker.java:352-360 | the top obligation is returned exactly when it is a builder; otherwise "Not an equivalence builder obligation" |
| Checker.KeepsTransitive | src/main/java/com/amazon/quivela/checker/Checker.java:180-328 | a scope that keeps a second one's frames, which keeps a third one's, keeps the third one's |
| Checker.SameStackTransitive | src/main/java/com/amazon/quivela/checker/Checker.java:527-555 | leaving the obligations below the top, and the symbol frames, in place composes |
| Checker.CheckEquiv | src/main/java/com/amazon/quivela/checker/Checker.java:958-977 | two expressions are equal exactly when their simplified forms render alike; otherwise the failure shows both simplified forms separated by " != " |
| Checker.CheckEquivProperties | src/main/java/com/amazon/quivela/checker/Checker.java:958-977 | the check is reflexive and symmetric, and an expression passes against its own simplification |
| Checker.ProofClose | src/main/java/com/amazon/quivela/checker/Checker.java:451-462 | closing a proof succeeds exactly when the top is an equivalence whose sides are equal; it then enqueues the bound check of the charged distance against the fact's distance |
| Checker.SymmetryStep | src/main/java/com/amazon/quivela/checker/Checker.java:744-751 | symmetry swaps the left and right of the top obligation and fails exactly when there is none |
| Checker.SymmetryInvolutive | src/main/java/com/amazon/quivela/checker/Checker.java:744-751 | symmetry applied twice gives back the state |
| Checker.AdmitStep | src/main/java/com/amazon/quivela/checker/Checker.java:753-759 | admit replaces the left by the right |
| Checker.TrivialStep | src/main/java/com/amazon/quivela/checker/Checker.java:761-769 | trivial succeeds exactly when the sides are equal, and then acts as admit |
| Checker.AdmitCloses | src/main/java/com/amazon/quivela/checker/Checker.java:753-759 | after admit the proof can be closed |
| Checker.AutoStep | src/main/java/com/amazon/quivela/checker/Checker.java:771-790 | auto enqueues the equivalence of the two sides, checked in a fresh constant frame, and replaces the left by the right |
| Checker.ScanBisimProps | src/main/java/com/amazon/quivela/checker/Checker.java:792-795 | visiting the bisimulation propositions keeps the frames already open |
| Checker.BisimStep | src/main/java/com/amazon/quivela/checker/Checker.java:797-828 | bisim needs both sides to be `new` expressions; it enqueues one bisimulation task with the given propositions and replaces the left by the right |
| Checker.UnfoldStep | src/main/java/com/amazon/quivela/checker/Checker.java:702-721 | unfold replaces the left by its unfolding and enqueues the equivalence of old and new left |
| Checker.InlineStep | src/main/java/com/amazon/quivela/checker/Checker.java:723-742 | inline replaces the left by its inlined form, with the ids the tactic supplies |
| Checker.ChargedSnoc | src/main/java/com/amazon/quivela/checker/Checker.java:844-846 | charging one more rewrite adds its distance to the total |
| Checker.ChargedAddends | src/main/java/com/amazon/quivela/checker/Checker.java:844-846 | the charged distance is the starting distance followed by every rewrite's distance, each as one addend |
| Checker.RewriteStep | src/main/java/com/amazon/quivela/checker/Checker.java:830-855 | rewrite with an unknown fact fails with "Undeclared symbol"; when it finds nothing it fails with "Nothing to rewrite"; otherwise the left is rewritten and every rewrite's distance charged |
| Checker.RewriteFact | src/main/java/com/amazon/quivela/checker/Checker.java:838 | the rewriter gets the fact's sides, variables and distance, and works inside methods exactly when the distance is zero |
| Checker.SingleVar | src/main/java/com/amazon/quivela/checker/Checker.java:865-876 | a hybrid fact is quantified over exactly one variable; otherwise "Hybrid argument facts must take a single parameter" |
| Checker.HybridArgument | src/main/java/com/amazon/quivela/checker/Checker.java:877-911 | a hybrid side passes exactly when it is a call with one argument that renders like the expected one |
| Checker.DistanceCheck | src/main/java/com/amazon/quivela/checker/Checker.java:913-918 | the distance passes exactly when the variable is not among its collected references, and, corrected, not among its lookups either |
| Checker.HybridDistanceFinding | src/main/java/com/amazon/quivela/checker/Checker.java:913-918 | as written the fact distance x * eps passes for variable x; corrected it is refused |
| Checker.HybridFact | src/main/java/com/amazon/quivela/checker/Checker.java:865-918 | a hybrid fact is accepted exactly when it has one variable x, its left is f(x), its right is f(x + 1) and x is not in its distance, with the source's message for each failed condition |
| Checker.HybridEnds | src/main/java/com/amazon/quivela/checker/Checker.java:920-935 | the two rewrite expressions are the fact's left with x replaced by the start and by the end; a start or end that is not a literal or a name fails |
| Checker.HybridRewrite | src/main/java/com/amazon/quivela/checker/Checker.java:857-956 | an unknown fact fails with "Undeclared symbol", an ill-shaped fact with its shape error; on success the left is rewritten from the start instance to the end instance |
| Checker.HybridStep | src/main/java/com/amazon/quivela/checker/Checker.java:937-952 | the hybrid tactic succeeds exactly when the rewrite does, and charges the distance of each rewrite |
| Checker.HybridRefusesVariableInDistance | src/main/java/com/amazon/quivela/checker/Checker.java:913-918 | corrected, a well-shaped fact whose distance mentions its variable is refused; as written it is accepted |
| Checker.HybridArgumentsText | src/main/java/com/amazon/quivela/checker/Checker.java:889-908 | the expected arguments render as x and x + 1 |
| Checker.DeclareFields | src/main/java/com/amazon/quivela/checker/Checker.java:572-581 | the constructor parameters of a rewritten `new` are declared once each, none already declared |
| Checker.Fill | src/main/java/com/amazon/quivela/checker/Checker.java:616-628 | replacing `...` by the previous body leaves no `...` when that body has none, and changes nothing without `...` |
| Checker.FillChildren | src/main/java/com/amazon/quivela/checker/Checker.java:616-628 | the same for the children of an expression |
| Checker.FillArgs | src/main/java/com/amazon/quivela/checker/Checker.java:616-628 | the same for a list of expressions, keeping its length |
| Checker.FillProp | src/main/java/com/amazon/quivela/checker/Checker.java:616-628 | the same for a proposition |
| Checker.FillEnv | src/main/java/com/amazon/quivela/checker/Checker.java:616-628 | the same for environment parameters |
| Checker.FillProps | src/main/java/com/amazon/quivela/checker/Checker.java:616-628 | the same for sub-propositions |
| Checker.FillMethod | src/main/java/com/amazon/quivela/checker/Checker.java:650-661 | the new method keeps its name, formals and whether it has a body |
| Checker.ReplaceMethods | src/main/java/com/amazon/quivela/checker/Checker.java:642-661 | each method named like the new one is replaced by it with `...` filled from the old body, others are kept; an old method without a body fails with a null dereference |
| Checker.RewriteTermStep | src/main/java/com/amazon/quivela/checker/Checker.java:664-700 | a parameter term replaces the builder's constructor parameters, a method term replaces the methods of that name; both need a `new` on the right, else "Not a new expression" |
| Checker.RewriteTerms | src/main/java/com/amazon/quivela/checker/Checker.java:664-700 | the rewrite terms change only the builder's right side and keep the frames |
| Checker.GoalStep | src/main/java/com/amazon/quivela/checker/Checker.java:557-600 | a goal turns the builder into an equivalence obligation from its left to the goal's right, with the builder's variables and distance |
| Checker.SubgoalOpen | src/main/java/com/amazon/quivela/checker/Checker.java:527-544 | a subgoal pushes a builder whose left and right are the current left, with the theorem's variables and the subgoal's bound |
| Checker.SubgoalClose | src/main/java/com/amazon/quivela/checker/Checker.java:546-555 | closing a subgoal pops it and sets the parent's left to the subgoal's right and adds the bound to the parent's distance |
| Checker.SubgoalStep | src/main/java/com/amazon/quivela/checker/Checker.java:527-555 | after a subgoal the parent's left is the goal and its distance has grown by the bound; the rest of the stack is unchanged |
| Checker.RunTactic | src/main/java/com/amazon/quivela/checker/Checker.java:527-956 | a tactic leaves the stack below the top and the frames in place; a subgoal acts as above |
| Checker.RunTactics | src/main/java/com/amazon/quivela/checker/Checker.java:451-462 | a proof's tactics leave the stack below the top in place |
| Checker.FactOpen | src/main/java/com/amazon/quivela/checker/Checker.java:330-344 | a fact opens a logical frame holding its formals and becomes pending with those as its variables; a name already proved fails with "theorem identifier already declared" |
| Checker.FactClose | src/main/java/com/amazon/quivela/checker/Checker.java:383-389 | closing a fact drops its frame and registers it under its name |
| Checker.TheoremStep | src/main/java/com/amazon/quivela/checker/Checker.java:372-390 | a proved theorem is registered under a new name with its sides, distance and variables; no other theorem changes and no obligation remains |
| Checker.TheoremNeedsEmptyStack | src/main/java/com/amazon/quivela/checker/Checker.java:384-386 | a theorem started with obligations already on the stack fails |
| Checker.AssumptionStep | src/main/java/com/amazon/quivela/checker/Checker.java:464-472 | an assumption is registered under a new name with its sides and distance, without a proof |
| Checker.JoinedSnoc | src/main/java/com/amazon/quivela/checker/Checker.java:401-418 | joining one more identifier appends the separator and the identifier |
| Checker.SplitAt | src/main/java/com/amazon/quivela/checker/Checker.java:401-418 | splitting at the first separator gives the part before it and the split of the rest |
| Checker.SplitJoined | src/main/java/com/amazon/quivela/checker/Checker.java:401-418 | splitting the joined identifiers at the separator gives them back, when none contains it |
| Checker.JoinedInjective | src/main/java/com/amazon/quivela/checker/Checker.java:401-418 | two identifier lists without the separator that join alike are equal |
| Checker.ModuleName | src/main/java/com/amazon/quivela/checker/Checker.java:411-418 | the module name is the identifiers joined by dots; an empty list fails with an index error |
| Checker.FilePath | src/main/java/com/amazon/quivela/checker/Checker.java:401-409 | the file path is the identifiers joined by the separator, followed by ".qvl" |
| Checker.ImportStep | src/main/java/com/amazon/quivela/checker/Checker.java:421-449 | a module already imported is ignored; otherwise it is recorded and its file is queued for loading |
| Checker.ImportOnce | src/main/java/com/amazon/quivela/checker/Checker.java:427-429 | importing the same module twice is the same as importing it once |
| Checker.RunDecl | src/main/java/com/amazon/quivela/checker/Checker.java:160-472 | a declaration keeps the checker at top level, and a declared constant is in the constant frame |
| Checker.RunDecls | src/main/java/com/amazon/quivela/checker/Checker.java:41-45 | a development keeps the checker at top level |
| Checker.Check | src/main/java/com/amazon/quivela/checker/Checker.java:41-45 | checking a development from the start ends at top level |
| Checker.ConstantDeclaredTwice | src/main/java/com/amazon/quivela/checker/Checker.java:167-170 | declaring the same constant twice fails with "already declared" |
| Checker.ModuleFilenameConverter.constructor | src/main/java/com/amazon/quivela/checker/Checker.java:392-394 | the converter starts with no identifiers |
| Checker.ModuleFilenameConverter.AddIdentifier | src/main/java/com/amazon/quivela/checker/Checker.java:396-399 | each visited identifier is appended |
| Checker.ModuleFilenameConverter.GetFilePath | src/main/java/com/amazon/quivela/checker/Checker.java:401-409 | the loop builds the file path |
| Checker.ModuleFilenameConverter.GetModuleName | src/main/java/com/amazon/quivela/checker/Checker.java:411-418 | the loop builds the module name |
| Checker.JoinFrom | src/main/java/com/amazon/quivela/checker/Checker.java:401-418 | the loop joins the identifiers with the separator |
| Checker.ProofChecker.constructor | src/main/java/com/amazon/quivela/checker/Checker.java:36-39 | the checker object starts in the initial state |
| Checker.ProofChecker.SetValue | src/main/java/com/amazon/quivela/checker/Checker.java:26-57 | the fields are set to the given state |
| Checker.ProofChecker.ChargeRewrites | src/main/java/com/amazon/quivela/checker/Checker.java:844-846 | the loop adds each rewrite's distance to the top obligation's distance and changes nothing else |
| Checker.ProofChecker.Rewrite | src/main/java/com/amazon/quivela/checker/Checker.java:830-855 | the rewrite tactic changes the fields as the rewrite step says, and fails with its error |
| Checker.ProofChecker.Hybrid | src/main/java/com/amazon/quivela/checker/Checker.java:857-956 | the hybrid tactic changes the fields as the corrected hybrid step says, and fails with its error |
| Checker.ProofChecker.OpenFact | src/main/java/com/amazon/quivela/checker/Checker.java:330-344 | opening a fact changes the fields as the fact-opening step says |
| Checker.ProofChecker.CloseFact | src/main/java/com/amazon/quivela/checker/Checker.java:383-389 | closing a fact changes the fields as the fact-closing step says |
| Checker.ProofChecker.Theorem | src/main/java/com/amazon/quivela/checker/Checker.java:372-390 | a theorem changes the fields as the theorem step says |
| Checker.ProofChecker.Import | src/main/java/com/amazon/quivela/checker/Checker.java:421-449 | an import changes the fields as the import step says |
| Checker.ProofChecker.Declaration | src/main/java/com/amazon/quivela/checker/Checker.java:160-472 | a declaration changes the fields as the declaration step says |
| Checker.ProofChecker.Development | src/main/java/com/amazon/quivela/checker/Checker.java:41-45 | a development changes the fields as running its declarations in order says |
| Declarations.Push | src/main/java/com/amazon/quivela/checker/Checker.java:180-183 | opening a `new`, method or quantifier puts an empty frame of the given kind on top of the others |
| Declarations.Add | src/main/java/com/amazon/quivela/checker/Checker.java:253-258 | adding a name records it with its type in the innermost frame and keeps every other frame |
| Declarations.Declare | src/main/java/com/amazon/quivela/checker/Checker.java:160-178 | a constant or formal is declared exactly when its annotation parses, the name may be declared there and a type is known, with the annotated type or else the default type; a name that may not be declared fails with "already declared" |
| Declarations.DeclareFormals | src/main/java/com/amazon/quivela/checker/Checker.java:234-249 | the formals are declared once each, none of them already in the innermost frame |
| Declarations.Scan | src/main/java/com/amazon/quivela/checker/Checker.java:180-328 | visiting an expression keeps the frames open before it |
| Declarations.ScanList | src/main/java/com/amazon/quivela/checker/Checker.java:180-328 | visiting a list of expressions keeps the frames open before it |
| Declarations.ScanNew | src/main/java/com/amazon/quivela/checker/Checker.java:180-193 | a `new` leaves the frames as they were, and a named one is recorded as the class of that name |
| Declarations.ScanParams | src/main/java/com/amazon/quivela/checker/Checker.java:213-232 | each constructor parameter is declared once, none already defined in the object's frame |
| Declarations.ScanMethods | src/main/java/com/amazon/quivela/checker/Checker.java:195-211 | the methods leave the frames as they were |
| Declarations.ScanMethod | src/main/java/com/amazon/quivela/checker/Checker.java:195-211 | a method leaves the frames as they were |
| Declarations.ScanProp | src/main/java/com/amazon/quivela/checker/Checker.java:316-328 | visiting a proposition keeps the frames open before it |
| Declarations.ScanEnv | src/main/java/com/amazon/quivela/checker/Checker.java:260-267 | visiting environment parameters keeps the frames |
| Declarations.ScanProps | src/main/java/com/amazon/quivela/checker/Checker.java:316-328 | visiting sub-propositions keeps the frames |
| Declarations.ScanBounds | src/main/java/com/amazon/quivela/checker/Checker.java:260-267 | visiting a bound keeps the frames |
| Declarations.ScanBoundsList | src/main/java/com/amazon/quivela/checker/Checker.java:260-267 | visiting a list of bounds keeps the frames |
| Declarations.DeclareFunc | src/main/java/com/amazon/quivela/checker/Checker.java:273-300 | a function is registered under a new name, with the frames and default types unchanged; a pure function with a body fails with "Function body is not pure." |
| Declarations.PlainScan | src/main/java/com/amazon/quivela/checker/Checker.java:260-308 | an expression without objects, assignments or quantifiers passes exactly when every name it looks up is declared and every function it calls is declared, and changes nothing |
| Declarations.PlainScanList | src/main/java/com/amazon/quivela/checker/Checker.java:260-308 | the same for a list of such expressions |
| Declarations.FieldDefinedTwice | src/main/java/com/amazon/quivela/checker/Checker.java:227-230 | an object that assigns the same member twice is refused |
| Declarations.FormalAssignedRefused | src/main/java/com/amazon/quivela/checker/Checker.java:239-242 | a method that assigns to the name of its first formal is refused with "already declared" |
| Declarations.RecursionRefused | src/main/java/com/amazon/quivela/checker/Checker.java:302-308 | a function whose body calls itself is refused with "Function not declared", since it is registered only after its body |
| Bisim.SideObject | src/main/java/com/amazon/quivela/checker/tactic/Bisim.java:139-144 | converting one side's object yields its field list, one signature per method name, signatures matching the definitions, and leaves the outer symbol frames alone |
| Bisim.Side | src/main/java/com/amazon/quivela/checker/tactic/Bisim.java:136-155 | declaring one side's classes and then its object registers the object's class (ByDef is defined), only adds methods and classes, and yields the object's fields and method names |
| Bisim.Prefixed | src/main/java/com/amazon/quivela/checker/tactic/Bisim.java:60-65 | each field name is prefixed by its side ("left." / "right."), position by position |
| Bisim.SidesFrame | src/main/java/com/amazon/quivela/checker/tactic/Bisim.java:77-83 | the invariant frame is one new constant frame pushed on the unchanged scopes |
| Bisim.FieldPairs | src/main/java/com/amazon/quivela/checker/tactic/Bisim.java:89-96 | the default invariant pairs the i-th left field with the i-th right field, for exactly as many positions as the shorter field list has |
| Bisim.ConvertProps | src/main/java/com/amazon/quivela/checker/tactic/Bisim.java:100-113 | each user property gives one Boogie property, flagged as an invariant exactly when it has no scope clause (or an invariant scope); constants are only added to |
| Bisim.Invariants | src/main/java/com/amazon/quivela/checker/tactic/Bisim.java:75-119 | with no properties the result is the single default invariant and the state is unchanged; otherwise one property per user property, with the symbol frame popped again |
| Bisim.ClauseInjective | src/main/java/com/amazon/quivela/checker/tactic/Bisim.java:164-168 | two clauses with the same keyword are equal exactly when their properties are |
| Bisim.InvariantClausesExact | src/main/java/com/amazon/quivela/checker/tactic/Bisim.java:164-168 | a clause is printed for a property if and only if that property is an invariant |
| Bisim.RequiresMatchEnsures | src/main/java/com/amazon/quivela/checker/tactic/Bisim.java:331-352 | a method procedure requires an invariant if and only if it ensures it |
| Bisim.ScopeObligations | src/main/java/com/amazon/quivela/checker/tactic/Bisim.java:266-274 | a checkpoint pair of a scope clause gives an assertion exactly when both labels were reached |
| Bisim.PropObligations | src/main/java/com/amazon/quivela/checker/tactic/Bisim.java:262-286 | the assertions are exactly the reached checkpoint pairs named in some property's scope clause |
| Bisim.CheckpointProp | src/main/java/com/amazon/quivela/checker/tactic/Bisim.java:58-73 | converting a property at a checkpoint pair only adds constants and keeps them valid |
| Bisim.Assertions | src/main/java/com/amazon/quivela/checker/tactic/Bisim.java:262-286 | no obligation prints nothing; otherwise constants are only added to |
| Bisim.AssertAll | src/main/java/com/amazon/quivela/checker/tactic/Bisim.java:262-286 | printing the checkpoint assertions leaves symbols, methods and classes unchanged, and no obligation changes nothing |
| Bisim.NewParams | src/main/java/com/amazon/quivela/checker/tactic/Bisim.java:195-220 | converting the constructor arguments records exactly the checkpoints their labels name, only adds temporaries, and leaves the outer frames alone |
| Bisim.BothParams | src/main/java/com/amazon/quivela/checker/tactic/Bisim.java:188-220 | the right side's conversion continues from the left's, so the checkpoints found are the labels of both sides' arguments |
| Bisim.BothNew | src/main/java/com/amazon/quivela/checker/tactic/Bisim.java:160-290 | writing both.new leaves the outer symbol frames, methods and classes as they were |
| Bisim.BothNewParamsFail | src/main/java/com/amazon/quivela/checker/tactic/Bisim.java:188-220 | a failure converting the constructor arguments is the failure of both.new |
| Bisim.BothNewUnfold | src/main/java/com/amazon/quivela/checker/tactic/Bisim.java:160-290 | both.new prints its header, clauses and runs and then the checkpoint assertions for the labels both runs reached |
| Bisim.BothNewClose | src/main/java/com/amazon/quivela/checker/tactic/Bisim.java:262-290 | closing both.new leaves symbols, methods and classes unchanged |
| Bisim.BothNewObligations | src/main/java/com/amazon/quivela/checker/tactic/Bisim.java:262-286 | both.new asserts a property at a checkpoint pair exactly when both labels occur in the constructor arguments and the property's scope names the pair |
| Bisim.BothNewClauseAsWritten | src/main/java/com/amazon/quivela/checker/tactic/Bisim.java:170 | as written, the function-state clause of both.new equates a variable with itself |
| Bisim.BothNewClauseCorrected | src/main/java/com/amazon/quivela/checker/tactic/Bisim.java:170 | the corrected clause equates functionState1 with functionState2 and is not a self-equation |
| Bisim.ArgMap | src/main/java/com/amazon/quivela/checker/tactic/Bisim.java:309-323 | the argument map is defined for exactly the formals of the signature |
| Bisim.ArgMapAt | src/main/java/com/amazon/quivela/checker/tactic/Bisim.java:309-315 | the formal at position i (its last occurrence) maps to the argument name a&lt;i&gt; |
| Bisim.BodyVarMap | src/main/java/com/amazon/quivela/checker/tactic/Bisim.java:361-362 | a body's variables are its fields and formals; a field not shadowed reads objectMemory, a formal at position i reads a&lt;i&gt; |
| Bisim.BodyScopes | src/main/java/com/amazon/quivela/checker/tactic/Bisim.java:361-395 | a method body is converted with three frames pushed on the unchanged scopes |
| Bisim.SideBody | src/main/java/com/amazon/quivela/checker/tactic/Bisim.java:358-395 | a body converts with its frames popped again, temporaries only extended and exactly its own checkpoint labels recorded; a method without a body is a null dereference |
| Bisim.BothBodies | src/main/java/com/amazon/quivela/checker/tactic/Bisim.java:358-395 | converting the two bodies (the right one under the left's argument map) leaves the scopes as they were |
| Bisim.MethodLocals | src/main/java/com/amazon/quivela/checker/tactic/Bisim.java:397-408 | the locals declared are the right converter's temporaries and both sides' let-variables |
| Bisim.SaveAll | src/main/java/com/amazon/quivela/checker/tactic/Bisim.java:416-418 | saving checkpoints keeps the indentation |
| Bisim.MethodRuns | src/main/java/com/amazon/quivela/checker/tactic/Bisim.java:358-463 | printing both runs of a method leaves the scopes as they were once the body frames are popped |
| Bisim.MethodProc | src/main/java/com/amazon/quivela/checker/tactic/Bisim.java:300-494 | a left method with no right counterpart fails with "Objects in bisimulation must have identical method signatures."; success leaves symbols, methods and classes unchanged |
| Bisim.MethodProcs | src/main/java/com/amazon/quivela/checker/tactic/Bisim.java:300-494 | all procedures written means every left method has a right counterpart |
| Bisim.Prepare | src/main/java/com/amazon/quivela/checker/tactic/Bisim.java:130-290 | after the declarations and both.new the two objects' signatures cover exactly their method names |
| Bisim.Finish | src/main/java/com/amazon/quivela/checker/tactic/Bisim.java:155-290 | the invariants and both.new keep the two converted objects |
| Bisim.Sides | src/main/java/com/amazon/quivela/checker/tactic/Bisim.java:136-155 | declaring both sides yields each object's method names and leaves the outer frames alone |
| Bisim.CheckTask | src/main/java/com/amazon/quivela/checker/tactic/Bisim.java:497-499 | the bisimulation gives a proof task exactly when generation succeeds, with priority 2, "Checking bisimulation" and "Bisimulation check failed." |
| Bisim.SignaturesMustAgree | src/main/java/com/amazon/quivela/checker/tactic/Bisim.java:292-307 | a bisimulation is generated only for objects with the same method names |
| Bisim.ProceduresNeedSameNames | src/main/java/com/amazon/quivela/checker/tactic/Bisim.java:292-307 | writing the method procedures succeeds only when both objects have the same method names |
| Bisim.ExtraRightMethodFails | src/main/java/com/amazon/quivela/checker/tactic/Bisim.java:294-298 | a method only the right object has makes the check fail with the signature message |
| Bisim.DefaultInvariantText | src/main/java/com/amazon/quivela/checker/tactic/Bisim.java:89-96 | the loop builds the default invariant "heap1==heap2" with one field equation per shared position |
| Bisim.ArgMapOf | src/main/java/com/amazon/quivela/checker/tactic/Bisim.java:309-315 | the loop builds the argument map of the signature |
| Bisim.SignaturesCovered | src/main/java/com/amazon/quivela/checker/tactic/Bisim.java:294-298 | the loop answers true exactly when every right method name is a left method name |
| Bisim.ConvertNewParams | src/main/java/com/amazon/quivela/checker/tactic/Bisim.java:195-220 | the loop converts the constructor arguments as NewParams specifies |
| Bisim.PrintClauses | src/main/java/com/amazon/quivela/checker/tactic/Bisim.java:164-168 | the loop prints one clause per invariant property |
| Bisim.PrintMethodHeader | src/main/java/com/amazon/quivela/checker/tactic/Bisim.java:327-331 | the loop prints the procedure header with one argument per position up to the larger signature |
| Bisim.SaveCheckpoints | src/main/java/com/amazon/quivela/checker/tactic/Bisim.java:416-418 | the loop saves each checkpoint in turn |
| Bisim.Bisim.constructor | src/main/java/com/amazon/quivela/checker/tactic/Bisim.java:50-56 | a tactic starts with the given symbol table and functions and no proof tasks |
| Bisim.Bisim.Check | src/main/java/com/amazon/quivela/checker/tactic/Bisim.java:122-500 | the check succeeds exactly when CheckTask does, appends that task and only that task, and on failure adds no task |
| Bisim.Bisim.PrepareStage | src/main/java/com/amazon/quivela/checker/tactic/Bisim.java:130-290 | the declarations and both.new update the tables as Prepare specifies |
| Bisim.Bisim.FinishStage | src/main/java/com/amazon/quivela/checker/tactic/Bisim.java:155-290 | the invariants and both.new update the tables as Finish specifies |
| Bisim.Bisim.SidesStage | src/main/java/com/amazon/quivela/checker/tactic/Bisim.java:136-155 | both sides are declared and converted as Sides specifies |
| Bisim.Bisim.SideStage | src/main/java/com/amazon/quivela/checker/tactic/Bisim.java:136-144 | one side is declared and converted as Side specifies |
| Bisim.Bisim.ObjectStage | src/main/java/com/amazon/quivela/checker/tactic/Bisim.java:139-144 | one side's object is converted and its fields declared as SideObject specifies |
| Bisim.Bisim.ConvertObject | src/main/java/com/amazon/quivela/checker/tactic/Bisim.java:141-142 | the object converter's result is ConvertNew's and the constants are its constants |
| Bisim.Bisim.ToBoogieProps | src/main/java/com/amazon/quivela/checker/tactic/Bisim.java:75-119 | the properties are converted and the tables updated as Invariants specifies |
| Bisim.Bisim.ConvertEach | src/main/java/com/amazon/quivela/checker/tactic/Bisim.java:101-113 | the loop converts the user properties as ConvertProps specifies |
| Bisim.Bisim.WriteAssertions | src/main/java/com/amazon/quivela/checker/tactic/Bisim.java:262-286 | the loops print the checkpoint assertions as AssertAll specifies |
| Bisim.Bisim.BothNewStage | src/main/java/com/amazon/quivela/checker/tactic/Bisim.java:160-290 | both.new is written as BothNew specifies |
| Bisim.Bisim.OpenStage | src/main/java/com/amazon/quivela/checker/tactic/Bisim.java:162-260 | the header, clauses and both runs are printed and the right conversion's scopes kept |
| Bisim.Bisim.CloseStage | src/main/java/com/amazon/quivela/checker/tactic/Bisim.java:262-290 | both.new is closed as BothNewClose specifies |
| Bisim.Bisim.ParamsStage | src/main/java/com/amazon/quivela/checker/tactic/Bisim.java:188-220 | the constructor arguments are converted as BothParams specifies |
| Bisim.Bisim.ProceduresStage | src/main/java/com/amazon/quivela/checker/tactic/Bisim.java:292-494 | the method procedures are written as Procedures specifies |
| Bisim.ConvertBodies | src/main/java/com/amazon/quivela/checker/tactic/Bisim.java:358-408 | the two bodies, their locals and their values are as BothBodies and MethodLocals specify |
| Bisim.Bisim.MethodStage | src/main/java/com/amazon/quivela/checker/tactic/Bisim.java:300-494 | one method procedure is written as MethodProc specifies |
| Bisim.Bisim.RunsStage | src/main/java/com/amazon/quivela/checker/tactic/Bisim.java:358-463 | both runs of one method are printed as MethodRuns specifies |
| Bisim.SideRun | src/main/java/com/amazon/quivela/checker/tactic/Bisim.java:358-395 | one body is converted by a fresh expression converter as SideBody specifies |
| Bisim.RunLocals | src/main/java/com/amazon/quivela/checker/tactic/Bisim.java:397-408 | the declared locals and the two values are those MethodLocals and GetValue give |
| Bisim.PrintBothNewOpen | src/main/java/com/amazon/quivela/checker/tactic/Bisim.java:162-181 | prints the header and clauses of both.new |
| Bisim.PrintBothNewRuns | src/main/java/com/amazon/quivela/checker/tactic/Bisim.java:185-260 | prints the locals, temporaries and both constructions of both.new |
| Bisim.PrintProcClauses | src/main/java/com/amazon/quivela/checker/tactic/Bisim.java:327-355 | prints the header, requires, modifies and ensures clauses of a method procedure |
| Bisim.WriteRuns | src/main/java/com/amazon/quivela/checker/tactic/Bisim.java:397-463 | prints the locals and the left and right runs with their checkpoint saves |
| PrettyPrint.Start | src/main/java/com/amazon/quivela/util/PrettyPrintStream.java:13-19 | a new stream has tab level 0, is at the start of a line and holds no text |
| PrettyPrint.Indent | src/main/java/com/amazon/quivela/util/PrettyPrintStream.java:39-43 | a line is indented by two spaces per positive tab level, not at all otherwise |
| PrettyPrint.Printed | src/main/java/com/amazon/quivela/util/PrettyPrintStream.java:38-46 | print keeps the tab level, leaves the stream mid-line and only appends to the text |
| PrettyPrint.Newline | src/main/java/com/amazon/quivela/util/PrettyPrintStream.java:28-31 | println() appends one line break and returns to the start of a line |
| PrettyPrint.PrintLine | src/main/java/com/amazon/quivela/util/PrettyPrintStream.java:33-36 | println(x) keeps the tab level and ends at the start of a line |
| PrettyPrint.PushedTab | src/main/java/com/amazon/quivela/util/PrettyPrintStream.java:21-23 | pushTab raises the tab level by one and changes nothing else |
| PrettyPrint.PoppedTab | src/main/java/com/amazon/quivela/util/PrettyPrintStream.java:24-26 | popTab lowers the tab level by one and changes nothing else |
| PrettyPrint.PrintLineText | src/main/java/com/amazon/quivela/util/PrettyPrintStream.java:33-46 | println(x) at the start of a line writes the indentation, x and a line break; mid-line it writes only x and a line break |
| PrettyPrint.PrintTwice | src/main/java/com/amazon/quivela/util/PrettyPrintStream.java:38-46 | only the first print of a line is indented: two prints write what one print of the concatenation writes |
| PrettyPrint.TabsBalance | src/main/java/com/amazon/quivela/util/PrettyPrintStream.java:21-26 | popTab undoes pushTab in either order; the level can fall below zero, where nothing is indented |
| PrettyPrint.PrintLines | src/main/java/com/amazon/quivela/util/PrettyPrintStream.java:33-36 | printing a batch of lines keeps the tab level and ends at a line start when the batch is not empty |
| PrettyPrint.PrintLinesText | src/main/java/com/amazon/quivela/util/PrettyPrintStream.java:33-46 | from the start of a line, a batch of lines appends each line indented at the current level |
| PrettyPrint.PrintLinesSnoc | src/main/java/com/amazon/quivela/util/PrettyPrintStream.java:33-36 | printing one more line after a batch is printing the longer batch |
| PrettyPrint.PrintLinesAppend | src/main/java/com/amazon/quivela/util/PrettyPrintStream.java:33-36 | printing two batches in turn is printing their concatenation |
| PrettyPrint.PrettyPrintStream.constructor | src/main/java/com/amazon/quivela/util/PrettyPrintStream.java:17-19 | a new stream is in the start state |
| PrettyPrint.PrettyPrintStream.PushTab | src/main/java/com/amazon/quivela/util/PrettyPrintStream.java:21-23 | the state becomes PushedTab of the old one |
| PrettyPrint.PrettyPrintStream.PopTab | src/main/java/com/amazon/quivela/util/PrettyPrintStream.java:24-26 | the state becomes PoppedTab of the old one |
| PrettyPrint.PrettyPrintStream.Println | src/main/java/com/amazon/quivela/util/PrettyPrintStream.java:28-31 | the state becomes Newline of the old one |
| PrettyPrint.PrettyPrintStream.PrintlnText | src/main/java/com/amazon/quivela/util/PrettyPrintStream.java:33-36 | the state becomes PrintLine of the old one |
| PrettyPrint.PrettyPrintStream.PrintlnAll | src/main/java/com/amazon/quivela/util/PrettyPrintStream.java:33-36 | printing each line in turn gives PrintLines of the old state |
| PrettyPrint.PrettyPrintStream.Print | src/main/java/com/amazon/quivela/util/PrettyPrintStream.java:38-46 | the indentation loop writes two spaces per tab level, giving Printed of the old state |
| BoogieTypes.BoogieString | src/main/java/com/amazon/quivela/checker/tactic/boogie/BoogieType.java:9-28 | ObjectId is declared as "ObjectID", Boolean as "Bool" and Opaque as "T" |
| BoogieTypes.AllTags | src/main/java/com/amazon/quivela/checker/tactic/boogie/BoogieType.java:8-18 | there are ten tags |
| BoogieTypes.TagsEnumerated | src/main/java/com/amazon/quivela/checker/tactic/boogie/BoogieType.java:8-18 | every tag is among the ten, each listed once |
| BoogieTypes.BoogieStringRoundTrip | src/main/java/com/amazon/quivela/checker/tactic/boogie/BoogieType.java:9-28 | a tag's Boogie name reads back as that tag, and only Boogie names read back |
| BoogieTypes.BoogieStringInjective | src/main/java/com/amazon/quivela/checker/tactic/boogie/BoogieType.java:9-28 | two tags have the same Boogie name if and only if they are the same tag |
| BoogieValue.ToBitstringString | src/main/java/com/amazon/quivela/checker/tactic/boogie/Value.java:88-102 | succeeds exactly for the Bitstring, Opaque, Boolean, Integer and Real tags, is the text itself for a Bitstring, and otherwise raises "Unsupported type: " with the tag |
| BoogieValue.ToOpaqueString | src/main/java/com/amazon/quivela/checker/tactic/boogie/Value.java:74-86 | is the text itself for Opaque and fails exactly for Object and Heap values, with "Unsupported type: " |
| BoogieValue.ToIntegerString | src/main/java/com/amazon/quivela/checker/tactic/boogie/Value.java:58-64 | is the text itself for an Integer and succeeds exactly when the value has a bitstring form |
| BoogieValue.ToBooleanString | src/main/java/com/amazon/quivela/checker/tactic/boogie/Value.java:66-72 | is the text itself for a Boolean; any other value with a bitstring form is that form compared with nil |
| BoogieValue.ToObjectIdString | src/main/java/com/amazon/quivela/checker/tactic/boogie/Value.java:104-110 | is the text itself for an ObjectId and fails exactly for Object and Heap values |
| BoogieValue.ToMemoryString | src/main/java/com/amazon/quivela/checker/tactic/boogie/Value.java:112-120 | an Object gives its memory attribute, a Memory its own text, and only a Heap fails |
| BoogieValue.ToRealString | src/main/java/com/amazon/quivela/checker/tactic/boogie/Value.java:122-130 | a Real is its own text, an Integer is cast with real(...), and it succeeds exactly when a bitstring form exists |
| BoogieValue.GetValue | src/main/java/com/amazon/quivela/checker/tactic/boogie/Value.java:25-50 | the text is unchanged when the tag already matches; ObjectId, Object, Heap and Expr cannot be reached from another tag ("Unknown type: "); Opaque, Bitstring and Real go through their own coercions |
| BoogieValue.ToStringValue | src/main/java/com/amazon/quivela/checker/tactic/boogie/Value.java:53-56 | printing a value without coercing it always raises "No!" |
| BoogieValue.BitsContextAgrees | src/main/java/com/amazon/quivela/checker/tactic/boogie/Value.java:88-102 | the bitstring coercion succeeds exactly when the reference table has a context for the tag, and then places the text in that context |
| BoogieValue.OpaqueContextAgrees | src/main/java/com/amazon/quivela/checker/tactic/boogie/Value.java:74-86 | the opaque coercion succeeds exactly when the reference table has a context for the tag, and then places the text in that context |
| BoogieValue.GetValueIsCoercion | src/main/java/com/amazon/quivela/checker/tactic/boogie/Value.java:25-50 | getValue raises exactly when the reference coercion table has no entry for the two tags, and otherwise wraps the text in that entry's prefix and suffix |
| BoogieValue.GetValueInjective | src/main/java/com/amazon/quivela/checker/tactic/boogie/Value.java:25-50 | no coercion loses information: two texts of one tag coercing to the same text are equal |
| BoogieValue.CoercionExists | src/main/java/com/amazon/quivela/checker/tactic/boogie/Value.java:25-50 | every tag reaches itself; only Object and Heap cannot reach Opaque; nothing else reaches ObjectId, Object, Heap or Expr; Bitstring, Integer and Boolean are reached from exactly the tags with a bitstring form |
| BoogieClasses.Empty | src/main/java/com/amazon/quivela/checker/tactic/boogie/BoogieClasses.java:17-18 | the empty table is its own inverse |
| BoogieClasses.ErasedParams | src/main/java/com/amazon/quivela/checker/tactic/boogie/BoogieClasses.java:20-54 | erasing keeps every constructor parameter's name and replaces every value by the default literal |
| BoogieClasses.KeyIgnoresArguments | src/main/java/com/amazon/quivela/checker/tactic/boogie/BoogieClasses.java:56-61 | two definitions that differ only in their constructor arguments have the same class key |
| BoogieClasses.ByDef | src/main/java/com/amazon/quivela/checker/tactic/boogie/BoogieClasses.java:88-90 | a definition has an id exactly when its key is in the table, and then it is the recorded id |
| BoogieClasses.ById | src/main/java/com/amazon/quivela/checker/tactic/boogie/BoogieClasses.java:92-94 | an id has a definition exactly when it is in the table, and then it is the recorded one |
| BoogieClasses.PutValueSpec | src/main/java/com/amazon/quivela/checker/tactic/boogie/BoogieClasses.java:63-81 | put succeeds if and only if neither the id nor the definition is paired with something else; afterwards each direction finds the other and every other id is unchanged; a clashing id raises "Redefinition of class with name: " |
| BoogieClasses.PutKeepsInverse | src/main/java/com/amazon/quivela/checker/tactic/boogie/BoogieClasses.java:63-81 | put keeps the two directions of the table inverse to each other |
| BoogieClasses.PutIdempotent | src/main/java/com/amazon/quivela/checker/tactic/boogie/BoogieClasses.java:63-81 | putting the same pair twice changes nothing more |
| BoogieClasses.NextClassId | src/main/java/com/amazon/quivela/checker/tactic/boogie/BoogieClasses.java:96-103 | the fresh class id is not yet an id |
| BoogieClasses.PutFreshValue | src/main/java/com/amazon/quivela/checker/tactic/boogie/BoogieClasses.java:83-86 | putting under a fresh id fails exactly when the definition already has a class ("Renaming of class with definition: "), and otherwise gives it the fresh id |
| BoogieClasses.BoogieClasses.constructor | src/main/java/com/amazon/quivela/checker/tactic/boogie/BoogieClasses.java:17-18 | a new table is empty |
| BoogieClasses.BoogieClasses.GetByDef | src/main/java/com/amazon/quivela/checker/tactic/boogie/BoogieClasses.java:88-90 | agrees with ByDef on the current table |
| BoogieClasses.BoogieClasses.GetById | src/main/java/com/amazon/quivela/checker/tactic/boogie/BoogieClasses.java:92-94 | agrees with ById on the current table |
| BoogieClasses.BoogieClasses.Put | src/main/java/com/amazon/quivela/checker/tactic/boogie/BoogieClasses.java:63-81 | succeeds exactly when PutValue does and then holds its table; on failure the table is unchanged; the inverse invariant is kept |
| BoogieClasses.BoogieClasses.FreshClassId | src/main/java/com/amazon/quivela/checker/tactic/boogie/BoogieClasses.java:96-103 | the counting loop returns the first "internal.cls" name not in use |
| BoogieClasses.BoogieClasses.PutFresh | src/main/java/com/amazon/quivela/checker/tactic/boogie/BoogieClasses.java:83-86 | the table becomes PutFreshValue's, unchanged on failure, and stays its own inverse |
| BoogieFunctions.Empty | src/main/java/com/amazon/quivela/checker/tactic/boogie/BoogieFunctions.java:14-15 | a new table declares nothing and is valid |
| BoogieFunctions.GetByName | src/main/java/com/amazon/quivela/checker/tactic/boogie/BoogieFunctions.java:21-23 | a name has a declaration exactly when it was put, and then it is the declaration put |
| BoogieFunctions.PutValue | src/main/java/com/amazon/quivela/checker/tactic/boogie/BoogieFunctions.java:25-33 | put fails exactly when the name is already declared ("Internal error. Function redefinition: "); otherwise the name finds the new declaration, every other name is unchanged, the name is appended to the list, and the list keeps each name once |
| BoogieFunctions.PutTwiceFails | src/main/java/com/amazon/quivela/checker/tactic/boogie/BoogieFunctions.java:25-33 | a second put of the same name always fails |
| BoogieFunctions.Functions.constructor | src/main/java/com/amazon/quivela/checker/tactic/boogie/BoogieFunctions.java:14-15 | a new table is empty |
| BoogieFunctions.Functions.Get | src/main/java/com/amazon/quivela/checker/tactic/boogie/BoogieFunctions.java:21-23 | agrees with GetByName on the current table |
| BoogieFunctions.Functions.Put | src/main/java/com/amazon/quivela/checker/tactic/boogie/BoogieFunctions.java:25-33 | succeeds exactly when PutValue does and then holds its table; on failure nothing changes |
| BoogieMethods.ProcName | src/main/java/com/amazon/quivela/checker/tactic/boogie/BoogieMethods.java:16-18 | a method has a procedure exactly when it was put, and then it is the one put |
| BoogieMethods.PutValue | src/main/java/com/amazon/quivela/checker/tactic/boogie/BoogieMethods.java:24-26 | put makes the name find the new procedure and leaves every other name as it was |
| BoogieMethods.FreshProcNameUnused | src/main/java/com/amazon/quivela/checker/tactic/boogie/BoogieMethods.java:28-35 | the fresh procedure name is no method's procedure, so recording it for a new method keeps procedure names distinct |
| BoogieMethods.BoogieMethods.constructor | src/main/java/com/amazon/quivela/checker/tactic/boogie/BoogieMethods.java:14 | a new table is empty |
| BoogieMethods.BoogieMethods.GetBoogieProcName | src/main/java/com/amazon/quivela/checker/tactic/boogie/BoogieMethods.java:16-18 | agrees with ProcName on the current table |
| BoogieMethods.BoogieMethods.Put | src/main/java/com/amazon/quivela/checker/tactic/boogie/BoogieMethods.java:24-26 | the table becomes PutValue's |
| BoogieMethods.BoogieMethods.FreshMethodProcName | src/main/java/com/amazon/quivela/checker/tactic/boogie/BoogieMethods.java:28-35 | the counting loop returns the first "&lt;name&gt;.proc.&lt;i&gt;" not yet a procedure name |
| BoogieConstants.Empty | src/main/java/com/amazon/quivela/checker/tactic/boogie/BoogieConstants.java:15-20 | a new table is valid: no constants, no method ids, counter at 0 |
| BoogieConstants.FieldDecls | src/main/java/com/amazon/quivela/checker/tactic/boogie/BoogieConstants.java:26 | one "const unique internal.attribute.field.&lt;f&gt; : Bitstring;" declaration per field, in order |
| BoogieConstants.NewFieldsExact | src/main/java/com/amazon/quivela/checker/tactic/boogie/BoogieConstants.java:22-31 | the fields a list adds are exactly the listed fields not yet declared, each once |
| BoogieConstants.AddFieldsDeclaresNew | src/main/java/com/amazon/quivela/checker/tactic/boogie/BoogieConstants.java:22-31 | addFields records every listed field and declares, in order, exactly those not declared before; nothing else changes |
| BoogieConstants.AddCheckpointValue | src/main/java/com/amazon/quivela/checker/tactic/boogie/BoogieConstants.java:33-41 | addCheckpoint records the label and declares its constant only the first time |
| BoogieConstants.AddCheckpointTwice | src/main/java/com/amazon/quivela/checker/tactic/boogie/BoogieConstants.java:33-41 | adding a label a second time writes nothing and changes nothing |
| BoogieConstants.AddMethodNameValue | src/main/java/com/amazon/quivela/checker/tactic/boogie/BoogieConstants.java:43-47 | addMethodName records the name, writes nothing and changes nothing else |
| BoogieConstants.AddExprSpec | src/main/java/com/amazon/quivela/checker/tactic/boogie/BoogieConstants.java:49-60 | a known expression keeps its constant and writes nothing; a new one gets a constant no other expression has, declared once, and only that entry is added; so distinct expressions always get distinct constants |
| BoogieConstants.MethodRefInjective | src/main/java/com/amazon/quivela/checker/tactic/boogie/BoogieConstants.java:63-65 | two method names have the same reference if and only if they are the same name |
| BoogieConstants.MethodProcId | src/main/java/com/amazon/quivela/checker/tactic/boogie/BoogieConstants.java:77-79 | a definition has a procedure id exactly when it was added, and then it is the recorded one |
| BoogieConstants.AddMethodSpec | src/main/java/com/amazon/quivela/checker/tactic/boogie/BoogieConstants.java:67-75 | after addMethod the definition has an id, the counter's value "internal.methodProcId.m&lt;n&gt;" when it is new; every other definition keeps its id; no two definitions share an id |
| BoogieConstants.BoogieConstants.constructor | src/main/java/com/amazon/quivela/checker/tactic/boogie/BoogieConstants.java:15-20 | a new table is empty |
| BoogieConstants.BoogieConstants.AddFields | src/main/java/com/amazon/quivela/checker/tactic/boogie/BoogieConstants.java:22-31 | the loop updates the table and the stream as AddFieldsValue specifies |
| BoogieConstants.BoogieConstants.AddCheckpoint | src/main/java/com/amazon/quivela/checker/tactic/boogie/BoogieConstants.java:33-41 | the table and stream become AddCheckpointValue's |
| BoogieConstants.BoogieConstants.AddMethodName | src/main/java/com/amazon/quivela/checker/tactic/boogie/BoogieConstants.java:43-47 | the table becomes AddMethodNameValue's |
| BoogieConstants.BoogieConstants.AddExpr | src/main/java/com/amazon/quivela/checker/tactic/boogie/BoogieConstants.java:49-60 | the constant returned, the table and the stream are AddExprValue's |
| BoogieConstants.BoogieConstants.AddMethod | src/main/java/com/amazon/quivela/checker/tactic/boogie/BoogieConstants.java:67-75 | the table becomes AddMethodValue's |
| BoogieConstants.BoogieConstants.GetMethodProcId | src/main/java/com/amazon/quivela/checker/tactic/boogie/BoogieConstants.java:77-79 | agrees with MethodProcId on the current table |
| Fresh.NatToString | src/main/java/com/amazon/quivela/checker/tactic/boogie/BoogieUtil.java:730-737 | the counter is written as a non-empty string of decimal digits |
| Fresh.ParseNatToString | src/main/java/com/amazon/quivela/checker/tactic/boogie/BoogieUtil.java:730-737 | reading the counter's digits back gives the counter |
| Fresh.NatToStringInjective | src/main/java/com/amazon/quivela/checker/tactic/boogie/BoogieUtil.java:730-737 | two counters are written alike if and only if they are equal |
| Fresh.NameInjective | src/main/java/com/amazon/quivela/checker/tactic/boogie/BoogieClasses.java:97-98 | two candidates of one prefix are equal if and only if their counters are |
| Fresh.NamesBelowCard | src/main/java/com/amazon/quivela/checker/tactic/boogie/BoogieClasses.java:97-102 | the first n candidates are n distinct names, and a candidate is among them exactly when its counter is below n |
| Fresh.FirstFreshFrom | src/main/java/com/amazon/quivela/checker/tactic/boogie/BoogieClasses.java:97-102 | the search stops at an unused candidate after only used ones, so it terminates because the used names are finite |
| Fresh.FreshNameSmallest | src/main/java/com/amazon/quivela/checker/tactic/boogie/BoogieClasses.java:96-103 | the name the counting loop returns is unused, carries the prefix, and is the smallest unused candidate |
| Fresh.FreshIndexAfterUse | src/main/java/com/amazon/quivela/checker/tactic/boogie/BoogieClasses.java:96-103 | once the allocated name is in use, the next allocation lies strictly beyond it, so successive allocations never repeat |
| Fresh.SmallestFresh | src/main/java/com/amazon/quivela/checker/tactic/boogie/BoogieClasses.java:96-103 | the counting loop returns the first candidate not in use, all earlier ones being in use |
| Fresh.FreshUnique | src/main/java/com/amazon/quivela/checker/tactic/boogie/BoogieClasses.java:96-103 | an unused candidate preceded only by used ones is the one the loop returns |
| BoogieUtil.ToBoogieType | src/main/java/com/amazon/quivela/checker/tactic/boogie/BoogieUtil.java:774-791 | a symbol type maps to a tag other than Boolean, ObjectId, Object and Heap (a Map is kept in a Memory) |
| BoogieUtil.ToBoogieTypeInverse | src/main/java/com/amazon/quivela/checker/tactic/boogie/BoogieUtil.java:774-791 | the mapping is one-to-one: a tag reads back as the symbol type it came from, and exactly the tags other than Boolean, ObjectId, Object and Heap read back |
| BoogieUtil.ToBoogieTypeOf | src/main/java/com/amazon/quivela/checker/tactic/boogie/BoogieUtil.java:774-791 | a missing type makes the switch dereference null; a present one maps as ToBoogieType |
| BoogieUtil.ToBoogieTypeOr | src/main/java/com/amazon/quivela/checker/tactic/boogie/BoogieUtil.java:767-773 | a missing type falls back to the default's tag |
| BoogieUtil.GetInType | src/main/java/com/amazon/quivela/checker/tactic/boogie/BoogieUtil.java:794-820 | "=" compares as Opaque; "==" and "!=" as Integer when both sides are integers, else as Bitstring; orderings as Real when either side is real, else as Integer; any other operator raises "unimplemented logic op: " |
| BoogieUtil.ConvertBoolOp | src/main/java/com/amazon/quivela/checker/tactic/boogie/BoogieUtil.java:822-839 | "=" and "==" both become "==", the other comparisons are kept, and anything else raises "unimplemented logic op: " |
| BoogieUtil.ComparisonTablesAgree | src/main/java/com/amazon/quivela/checker/tactic/boogie/BoogieUtil.java:794-839 | the two tables accept the same operators, and the operand tag does not depend on the operands' order |
| BoogieUtil.FieldAccessInjective | src/main/java/com/amazon/quivela/checker/tactic/boogie/BoogieUtil.java:503 | two fields of one memory map have the same access if and only if they are the same field |
| BoogieUtil.GetScopedVars | src/main/java/com/amazon/quivela/checker/tactic/boogie/BoogieUtil.java:500-506 | the loop maps every field to its access in the memory map, as ScopedVars does |
| BoogieUtil.ScopedVarsExact | src/main/java/com/amazon/quivela/checker/tactic/boogie/BoogieUtil.java:500-506 | the scoped variables are exactly the fields, and no two share an access |
| BoogieUtil.ToCheckpointId | src/main/java/com/amazon/quivela/checker/tactic/boogie/BoogieUtil.java:524-526 | a checkpoint id carries the prefix "internal.checkpointid." |
| BoogieUtil.CheckpointIdInjective | src/main/java/com/amazon/quivela/checker/tactic/boogie/BoogieUtil.java:524-526 | two labels have the same checkpoint id if and only if they are the same label |
| BoogieUtil.FreshExprConstId | src/main/java/com/amazon/quivela/checker/tactic/boogie/BoogieUtil.java:730-737 | the loop returns the first "internal.expr&lt;i&gt;" not among the existing constants |
| BoogieUtil.SaveCheckpoint | src/main/java/com/amazon/quivela/checker/tactic/boogie/BoogieUtil.java:739-757 | saving a checkpoint keeps the indentation and ends at the start of a line |
| BoogieUtil.TargetMethodLines | src/main/java/com/amazon/quivela/checker/tactic/boogie/BoogieUtil.java:528-589 | a target method is declared by twelve lines, the fifth being its procedure header with one argument per position |
| BoogieUtil.TrailingDigitsRun | src/main/java/com/amazon/quivela/checker/tactic/boogie/BoogieUtil.java:687 | the counted run at the end of a string is all digits and cannot be extended |
| BoogieUtil.TrailingDigitsOf | src/main/java/com/amazon/quivela/checker/tactic/boogie/BoogieUtil.java:687 | the digit run before the fixed suffix is exactly the digits written there |
| BoogieUtil.LineSucceedsIffMatches | src/main/java/com/amazon/quivela/checker/tactic/boogie/BoogieUtil.java:687-691 | the line decision accepts exactly the lines the pattern "Boogie program verifier finished with \d+ verified, 0 errors$" finds |
| BoogieUtil.BoogieOutSuccess | src/main/java/com/amazon/quivela/checker/tactic/boogie/BoogieUtil.java:684-701 | the verifier's output succeeds if and only if some line matches the success pattern |
| BoogieUtil.SuccessExamples | src/main/java/com/amazon/quivela/checker/tactic/boogie/BoogieUtil.java:684-701 | a report of 12 verified, 0 errors is recognised; one with 1 error is not |
| BoogieUtil.BoogieCache.constructor | src/main/java/com/amazon/quivela/checker/tactic/boogie/BoogieUtil.java:597-599 | a new cache holds no digests |
| BoogieUtil.BoogieCache.AddDigest | src/main/java/com/amazon/quivela/checker/tactic/boogie/BoogieUtil.java:615-617 | addDigest adds exactly that digest |
| BoogieUtil.BoogieCache.Add | src/main/java/com/amazon/quivela/checker/tactic/boogie/BoogieUtil.java:601-621 | after add(s) the cache contains s, and it newly contains exactly the programs with the same digest |
| BoogieBoundsExprConverter.Operator | src/main/java/com/amazon/quivela/checker/tactic/boogie/BoogieBoundsExprConverter.java:225-231 | "^" is written "**"; every other operator is kept |
| BoogieBoundsExprConverter.Arith | src/main/java/com/amazon/quivela/checker/tactic/boogie/BoogieBoundsExprConverter.java:97-111 | a binary operation succeeds exactly when both operands coerce to the result tag, and its value has that tag |
| BoogieBoundsExprConverter.Power | src/main/java/com/amazon/quivela/checker/tactic/boogie/BoogieBoundsExprConverter.java:212-223 | an exponent succeeds exactly when both operands have a real form, and its value is real |
| BoogieBoundsExprConverter.InternsTransitive | src/main/java/com/amazon/quivela/checker/tactic/boogie/BoogieBoundsExprConverter.java:184-189 | interning one batch of env texts and then another interns both batches |
| BoogieBoundsExprConverter.Intern | src/main/java/com/amazon/quivela/checker/tactic/boogie/BoogieBoundsExprConverter.java:184-189 | an env term's value is its expression constant, of tag Expr; a text already interned keeps its constant and changes nothing |
| BoogieBoundsExprConverter.Convert | src/main/java/com/amazon/quivela/checker/tactic/boogie/BoogieBoundsExprConverter.java:71-223 | a conversion interns exactly the expression's env texts; a number is an Integer and a boolean a Boolean, with their own text; a lookup succeeds exactly when the name has a type; an undeclared function raises "function not declared: "; only a pure function may be called |
| BoogieBoundsExprConverter.ConvertArgs | src/main/java/com/amazon/quivela/checker/tactic/boogie/BoogieBoundsExprConverter.java:148-165 | the arguments give one coerced text each, in order, and there are no more arguments than formals |
| BoogieBoundsExprConverter.ConvertTag | src/main/java/com/amazon/quivela/checker/tactic/boogie/BoogieBoundsExprConverter.java:97-223 | every successful conversion's tag is the one the promotion rules give: real for a division, an exponent or a real operand, otherwise integer |
| BoogieBoundsExprConverter.EnvInternedOnce | src/main/java/com/amazon/quivela/checker/tactic/boogie/BoogieBoundsExprConverter.java:184-189 | converting an env term again gives the same constant and changes nothing more |
| BoogieBoundsExprConverter.BoundsConverter.constructor | src/main/java/com/amazon/quivela/checker/tactic/boogie/BoogieBoundsExprConverter.java:28-34 | a new converter holds the given tables and an empty value stack |
| BoogieBoundsExprConverter.BoundsConverter.Apply | src/main/java/com/amazon/quivela/checker/tactic/boogie/BoogieBoundsExprConverter.java:51-223 | a successful conversion pushes its value and takes its state; a failing one changes nothing |
| BoogieBoundsExprConverter.BoundsConverter.GetValue | src/main/java/com/amazon/quivela/checker/tactic/boogie/BoogieBoundsExprConverter.java:42-48 | more than one value on the stack raises "Values lost during conversion"; otherwise the top value, or none |
| BoogieFormalParamsConverter.Step | src/main/java/com/amazon/quivela/checker/tactic/boogie/BoogieFormalParamsConverter.java:45-72 | a parameter appends its name, clears the pending comma, keeps the indentation and advances the position only in the positional forms |
| BoogieFormalParamsConverter.InParam | src/main/java/com/amazon/quivela/checker/tactic/boogie/BoogieFormalParamsConverter.java:45-72 | a parameter is written exactly when its annotation is supported, and its name is collected |
| BoogieFormalParamsConverter.ParamStep | src/main/java/com/amazon/quivela/checker/tactic/boogie/BoogieFormalParamsConverter.java:45-77 | parameter i, with the comma before every parameter after the first, succeeds exactly when its annotation is supported and collects its name |
| BoogieFormalParamsConverter.ConvertSucceeds | src/main/java/com/amazon/quivela/checker/tactic/boogie/BoogieFormalParamsConverter.java:45-77 | the walk succeeds exactly when every remaining annotation is supported |
| BoogieFormalParamsConverter.StepText | src/main/java/com/amazon/quivela/checker/tactic/boogie/BoogieFormalParamsConverter.java:45-77 | on a stream that does not indent, one parameter appends the comma if due and then its entry in the chosen form |
| BoogieFormalParamsConverter.ConvertShape | src/main/java/com/amazon/quivela/checker/tactic/boogie/BoogieFormalParamsConverter.java:45-77 | the walk keeps the indentation, advances the position by the number of parameters in the positional forms, and leaves a comma pending only if there were no parameters |
| BoogieFormalParamsConverter.ConvertText | src/main/java/com/amazon/quivela/checker/tactic/boogie/BoogieFormalParamsConverter.java:45-77 | the walk writes the pending comma, if any, and then each parameter in order, separated by ", " |
| BoogieFormalParamsConverter.ConvertCollectsNames | src/main/java/com/amazon/quivela/checker/tactic/boogie/BoogieFormalParamsConverter.java:71 | whatever the stream, the names collected are the parameter ids in order |
| BoogieFormalParamsConverter.FormalParamsConverter.constructor | src/main/java/com/amazon/quivela/checker/tactic/boogie/BoogieFormalParamsConverter.java:33-42 | a new converter has the given stream, mode, default type and comma flag, no names and position 0 |
| BoogieFormalParamsConverter.FormalParamsConverter.Convert | src/main/java/com/amazon/quivela/checker/tactic/boogie/BoogieFormalParamsConverter.java:44-77 | the depth-first walk gives Converted's state, or its failure |
| BoogieFormalParamsConverter.FormalParamsConverter.VisitParam | src/main/java/com/amazon/quivela/checker/tactic/boogie/BoogieFormalParamsConverter.java:45-77 | one parameter gives ParamStep's state, or its failure |
| BoogieClassDecls.InvokeStep | src/main/java/com/amazon/quivela/checker/tactic/boogie/BoogieClassDecls.java:54-69 | after an invocation its method name has a procedure; a name that had one changes nothing; only the method table and the stream change |
| BoogieClassDecls.InvokeOnce | src/main/java/com/amazon/quivela/checker/tactic/boogie/BoogieClassDecls.java:59-68 | a method name is declared once: a later invocation of the name, with any arity, changes nothing |
| BoogieClassDecls.InvokeFresh | src/main/java/com/amazon/quivela/checker/tactic/boogie/BoogieClassDecls.java:59-68 | the first invocation of a name records a fresh procedure no other name has and declares it as a target method with this call's arity; procedures stay distinct |
| BoogieClassDecls.AddMethodsValue | src/main/java/com/amazon/quivela/checker/tactic/boogie/BoogieClassDecls.java:107-109 | adding the method names adds exactly those keys, keeps existing ids and the rest of the table, and keeps it valid |
| BoogieClassDecls.AddCheckpointsValue | src/main/java/com/amazon/quivela/checker/tactic/boogie/BoogieClassDecls.java:99-101 | adding checkpoint labels adds exactly those labels, changes nothing else and keeps the indentation |
| BoogieClassDecls.ParamsStep | src/main/java/com/amazon/quivela/checker/tactic/boogie/BoogieClassDecls.java:91-102 | converting the constructor arguments records exactly their checkpoint labels and leaves methods, classes and outer frames alone |
| BoogieClassDecls.FieldsAdded | src/main/java/com/amazon/quivela/checker/tactic/boogie/BoogieClassDecls.java:106 | addFields only adds to the declared fields, and every listed field is declared afterwards |
| BoogieClassDecls.RegisterEffect | src/main/java/com/amazon/quivela/checker/tactic/boogie/BoogieClassDecls.java:106-112 | registering a converted object declares every field, method name and checkpoint label it collected, keeps existing method ids and keeps the table valid |
| BoogieClassDecls.FinishEffect | src/main/java/com/amazon/quivela/checker/tactic/boogie/BoogieClassDecls.java:104-114 | finishing a class gives the definition the class name, only adds classes, keeps the tables valid and inverse, and registers what the object converter collected |
| BoogieClassDecls.InternEffect | src/main/java/com/amazon/quivela/checker/tactic/boogie/BoogieClassDecls.java:78-114 | interning a new class gives it the name, declares its fields, method names and the labels in its methods, and leaves the methods and outer frames alone |
| BoogieClassDecls.NewEffect | src/main/java/com/amazon/quivela/checker/tactic/boogie/BoogieClassDecls.java:71-116 | after a new expression its definition has a class: the one it had (nothing changes) or the class name it was given, with its fields, methods and labels declared |
| BoogieClassDecls.NewOnce | src/main/java/com/amazon/quivela/checker/tactic/boogie/BoogieClassDecls.java:74-76 | a new expression interned once is skipped from then on |
| BoogieClassDecls.RedefinitionRejected | src/main/java/com/amazon/quivela/checker/tactic/boogie/BoogieClassDecls.java:79-82 | a class name that already names a different definition makes the walk fail |
| BoogieClassDecls.Declare | src/main/java/com/amazon/quivela/checker/tactic/boogie/BoogieClassDecls.java:41-116 | the depth-first walk leaves the outer symbol frames as they were |
| BoogieClassDecls.DeclareAll | src/main/java/com/amazon/quivela/checker/tactic/boogie/BoogieClassDecls.java:41-116 | walking several children leaves the outer symbol frames as they were |
| BoogieClassDecls.DeclareFunc | src/main/java/com/amazon/quivela/checker/tactic/boogie/BoogieClassDecls.java:41-52 | a function declaration's parameter frame is pushed and popped again |
| BoogieClassDecls.DeclaredMonotone | src/main/java/com/amazon/quivela/checker/tactic/boogie/BoogieClassDecls.java:54-116 | once declared, an expression stays declared as the tables grow |
| BoogieClassDecls.InvokeExtends | src/main/java/com/amazon/quivela/checker/tactic/boogie/BoogieClassDecls.java:54-69 | an invocation only grows the tables |
| BoogieClassDecls.NewExtends | src/main/java/com/amazon/quivela/checker/tactic/boogie/BoogieClassDecls.java:71-116 | a new expression only grows the tables |
| BoogieClassDecls.DeclareDeclares | src/main/java/com/amazon/quivela/checker/tactic/boogie/BoogieClassDecls.java:41-116 | after a successful walk every new expression in the expression has a class and every invoked method name a procedure |
| BoogieClassDecls.DeclareAllDeclares | src/main/java/com/amazon/quivela/checker/tactic/boogie/BoogieClassDecls.java:41-116 | after walking several children all of them are declared and the tables only grew |
| BoogieClassDecls.NestedFirst | src/main/java/com/amazon/quivela/checker/tactic/boogie/BoogieClassDecls.java:71-116 | a new expression nested in another is declared before the enclosing one is interned |
| BoogieClassDecls.ClassDecls.constructor | src/main/java/com/amazon/quivela/checker/tactic/boogie/BoogieClassDecls.java:28-35 | a new walker shares the given tables and stream |
| BoogieClassDecls.ClassDecls.Visit | src/main/java/com/amazon/quivela/checker/tactic/boogie/BoogieClassDecls.java:41-116 | the walk of one expression updates the tables as Declare specifies |
| BoogieClassDecls.ClassDecls.VisitAll | src/main/java/com/amazon/quivela/checker/tactic/boogie/BoogieClassDecls.java:41-116 | the walk of several expressions updates the tables as DeclareAll specifies |
| BoogieClassDecls.ClassDecls.VisitFunc | src/main/java/com/amazon/quivela/checker/tactic/boogie/BoogieClassDecls.java:41-52 | the walk of a function declaration updates the tables as DeclareFunc specifies |
| BoogieClassDecls.ClassDecls.OutInvoke | src/main/java/com/amazon/quivela/checker/tactic/boogie/BoogieClassDecls.java:54-69 | the tables become InvokeStep's |
| BoogieClassDecls.ClassDecls.DeclareTargetMethod | src/main/java/com/amazon/quivela/checker/tactic/boogie/BoogieClassDecls.java:66 | the stream receives the target-method declaration |
| BoogieClassDecls.ClassDecls.OutNew | src/main/java/com/amazon/quivela/checker/tactic/boogie/BoogieClassDecls.java:71-116 | the tables become NewStep's, or the walk fails as it does |
| BoogieClassDecls.ClassDecls.InternNew | src/main/java/com/amazon/quivela/checker/tactic/boogie/BoogieClassDecls.java:78-114 | the tables become Intern's, or the walk fails as it does |
| BoogieClassDecls.ClassDecls.Finish | src/main/java/com/amazon/quivela/checker/tactic/boogie/BoogieClassDecls.java:104-114 | the tables become FinishNew's, or the walk fails as it does |
| BoogieClassDecls.ClassDecls.RegisterObject | src/main/java/com/amazon/quivela/checker/tactic/boogie/BoogieClassDecls.java:106-112 | the constants and the stream become Register's |
| BoogieClassDecls.ClassDecls.AddMethods | src/main/java/com/amazon/quivela/checker/tactic/boogie/BoogieClassDecls.java:107-109 | the loop adds the method names as AddMethodsValue specifies |
| BoogieClassDecls.ClassDecls.AddCheckpoints | src/main/java/com/amazon/quivela/checker/tactic/boogie/BoogieClassDecls.java:99-101 | the loop adds the labels as AddCheckpointsValue specifies |
| BoogieClassDecls.ClassDecls.ParamCheckpoints | src/main/java/com/amazon/quivela/checker/tactic/boogie/BoogieClassDecls.java:91-102 | the loop over the constructor arguments updates the tables as ParamsStep specifies |
| BoogiePropConverter.NoSides | src/main/java/com/amazon/quivela/checker/tactic/boogie/BoogiePropConverter.java:54-56 | the short constructor has no object sides: both field collections are absent |
| BoogiePropConverter.JoinedSnoc | src/main/java/com/amazon/quivela/checker/tactic/boogie/BoogiePropConverter.java:84-101 | joining a list extended by one item appends the separator and the item to the joined prefix |
| BoogiePropConverter.PositionalConjuncts | src/main/java/com/amazon/quivela/checker/tactic/boogie/BoogiePropConverter.java:84-101 | pairs the i-th left field with the i-th right field, for as many positions as the shorter side has |
| BoogiePropConverter.PositionalValue | src/main/java/com/amazon/quivela/checker/tactic/boogie/BoogiePropConverter.java:84-101 | fails with a null dereference exactly when a side's field collection is absent; otherwise the conjunction, joined by "&amp;&amp;", of the positional field equalities |
| BoogiePropConverter.PositionalFieldsEqual | src/main/java/com/amazon/quivela/checker/tactic/boogie/BoogiePropConverter.java:84-101 | the loop over left fields and a cursor over right fields builds exactly the joined positional conjunction |
| BoogiePropConverter.PositionalSnoc | src/main/java/com/amazon/quivela/checker/tactic/boogie/BoogiePropConverter.java:88-97 | one loop step extends the positional conjunction by the pair it visits, with the separator only after the first |
| BoogiePropConverter.CommonFields | src/main/java/com/amazon/quivela/checker/tactic/boogie/BoogiePropConverter.java:115-123 | a field is kept exactly when it is a left field, is a right field and is not excepted |
| BoogiePropConverter.SameFieldConjuncts | src/main/java/com/amazon/quivela/checker/tactic/boogie/BoogiePropConverter.java:115-123 | each kept field becomes the equality of that field on the left and right memories |
| BoogiePropConverter.ExceptValue | src/main/java/com/amazon/quivela/checker/tactic/boogie/BoogiePropConverter.java:103-131 | an absent side fails with a null dereference; with both sides, fails with "No common fields remain." exactly when no common, non-excepted field remains, and is otherwise the joined conjunction of their equalities |
| BoogiePropConverter.FieldsEqualExcept | src/main/java/com/amazon/quivela/checker/tactic/boogie/BoogiePropConverter.java:103-131 | the loop over left fields yields exactly the outcome described by the specification of the except case |
| BoogiePropConverter.ExceptValueOf | src/main/java/com/amazon/quivela/checker/tactic/boogie/BoogiePropConverter.java:103-131 | with both sides present the except case is the error when no field remains and the joined conjunction otherwise |
| BoogiePropConverter.ExceptStep | src/main/java/com/amazon/quivela/checker/tactic/boogie/BoogiePropConverter.java:115-123 | one loop step adds a conjunct exactly when the visited field is common and not excepted, and leaves the text unchanged otherwise |
| BoogiePropConverter.ExceptSnoc | src/main/java/com/amazon/quivela/checker/tactic/boogie/BoogiePropConverter.java:115-123 | adding one kept field appends its equality after the separator, or alone when it is the first |
| BoogiePropConverter.LogicOp | src/main/java/com/amazon/quivela/checker/tactic/boogie/BoogiePropConverter.java:645-658 | "&amp;&amp;" and "\|\|" are kept, "-&gt;" becomes "==&gt;", and every other operator fails with "unexpected logic op: " |
| BoogiePropConverter.SumOp | src/main/java/com/amazon/quivela/checker/tactic/boogie/BoogiePropConverter.java:660-671 | "+" and "-" are kept; every other operator fails with "unimplemented logic op: " |
| BoogiePropConverter.ProductOp | src/main/java/com/amazon/quivela/checker/tactic/boogie/BoogiePropConverter.java:673-686 | "%" becomes " mod ", "*" and "/" are kept; every other operator fails with "unimplemented logic op: " |
| BoogiePropConverter.Infix | src/main/java/com/amazon/quivela/checker/tactic/boogie/BoogiePropConverter.java:175-206 | an infix term succeeds exactly when both operands convert to the operand type and the operator is known |
| BoogiePropConverter.RelOpText | src/main/java/com/amazon/quivela/checker/tactic/boogie/BoogiePropConverter.java:541-553 | a comparison converts both operands to the type the operator demands and uses the translated comparison; an unknown comparison fails |
| BoogiePropConverter.LogicText | src/main/java/com/amazon/quivela/checker/tactic/boogie/BoogiePropConverter.java:615-624 | a connective succeeds exactly when both operands are boolean-convertible and the connective is known |
| BoogiePropConverter.Select | src/main/java/com/amazon/quivela/checker/tactic/boogie/BoogiePropConverter.java:296-328 | "left" picks the left side, "right" the right side, anything else fails with "invalid &lt;object or heap&gt; specifier: " |
| BoogiePropConverter.ArgStrings | src/main/java/com/amazon/quivela/checker/tactic/boogie/BoogiePropConverter.java:416-432 | each argument is converted to the Boogie type of the declared parameter at its position; conversion succeeds when every argument has a parameter and converts |
| BoogiePropConverter.CallValue | src/main/java/com/amazon/quivela/checker/tactic/boogie/BoogiePropConverter.java:404-440 | an undeclared function fails with "Function not declared: "; a call's type is the Boogie type of the function's declared return type |
| BoogiePropConverter.Binders | src/main/java/com/amazon/quivela/checker/tactic/boogie/BoogiePropConverter.java:566-574 | quantifier binders keep the collected names, and a binder without a type gets the bitstring type |
| BoogiePropConverter.Somes | src/main/java/com/amazon/quivela/checker/tactic/boogie/BoogiePropConverter.java:576-577 | every binder enters the scope with its known type |
| BoogiePropConverter.QuantifierScopes | src/main/java/com/amazon/quivela/checker/tactic/boogie/BoogiePropConverter.java:576-577 | a quantifier opens one logical frame on top of the enclosing scopes and leaves them unchanged beneath |
| BoogiePropConverter.BinderList | src/main/java/com/amazon/quivela/checker/tactic/boogie/BoogiePropConverter.java:592-602 | each binder is written as its name, a colon and its Boogie type, in order |
| BoogiePropConverter.Convert | src/main/java/com/amazon/quivela/checker/tactic/boogie/BoogiePropConverter.java:84-630 | converting a proposition only adds interned expression constants: existing entries and the other constant tables are kept, and validity of the table is preserved |
| BoogiePropConverter.ConvertLeaf | src/main/java/com/amazon/quivela/checker/tactic/boogie/BoogiePropConverter.java:84-368 | a lookup succeeds exactly when the symbol is in scope (else "symbol does not exist: ") and yields its mapped name at its Boogie type; the field cases are the two field specifications; object and heap specifiers pick one of the two sides; an environment is interned as an expression constant |
| BoogiePropConverter.ConvertUnary | src/main/java/com/amazon/quivela/checker/tactic/boogie/BoogiePropConverter.java:133-144 | unary propositions keep the interned constants growing and valid |
| BoogiePropConverter.ConvertBinary | src/main/java/com/amazon/quivela/checker/tactic/boogie/BoogiePropConverter.java:153-233 | binary propositions keep the interned constants growing and valid |
| BoogiePropConverter.ConvertArgs | src/main/java/com/amazon/quivela/checker/tactic/boogie/BoogiePropConverter.java:404-419 | every argument yields exactly one value, and the interned constants only grow |
| BoogiePropConverter.ConvertTag | src/main/java/com/amazon/quivela/checker/tactic/boogie/BoogiePropConverter.java:84-630 | the Boogie type of every converted proposition is the one its form determines |
| BoogiePropConverter.LeafTag | src/main/java/com/amazon/quivela/checker/tactic/boogie/BoogiePropConverter.java:84-368 | the type of a converted leaf is the one its form determines |
| BoogiePropConverter.ParenTag | src/main/java/com/amazon/quivela/checker/tactic/boogie/BoogiePropConverter.java:340-357 | pass-through forms such as parentheses keep the type of what they enclose |
| BoogiePropConverter.UnaryTag | src/main/java/com/amazon/quivela/checker/tactic/boogie/BoogiePropConverter.java:133-144 | the type of a converted unary proposition is the one its form determines |
| BoogiePropConverter.BinaryTag | src/main/java/com/amazon/quivela/checker/tactic/boogie/BoogiePropConverter.java:153-233 | the type of a converted binary proposition is the one its form determines |
| BoogieExprConverter.NewTemporary | src/main/java/com/amazon/quivela/checker/tactic/boogie/BoogieExprConverter.java:80-88 | the new temporary is the first "internal.tmp" name not yet taken, and it is recorded with the requested type |
| BoogieExprConverter.GrowsTransitive | src/main/java/com/amazon/quivela/checker/tactic/boogie/BoogieExprConverter.java:19-34 | the converter's state only grows: temporaries, let-bound names and checkpoints are never removed |
| BoogieExprConverter.WithTemporary | src/main/java/com/amazon/quivela/checker/tactic/boogie/BoogieExprConverter.java:80-92 | taking a temporary adds exactly one unused temporary name and changes nothing else |
| BoogieExprConverter.Line | src/main/java/com/amazon/quivela/checker/tactic/boogie/BoogieExprConverter.java:19-34 | printing a line changes only the output |
| BoogieExprConverter.Push | src/main/java/com/amazon/quivela/checker/tactic/boogie/BoogieExprConverter.java:232 | indenting changes only the output's indentation |
| BoogieExprConverter.Pop | src/main/java/com/amazon/quivela/checker/tactic/boogie/BoogieExprConverter.java:236 | outdenting changes only the output's indentation |
| BoogieExprConverter.DeclaredVars | src/main/java/com/amazon/quivela/checker/tactic/boogie/BoogieExprConverter.java:50-57 | the declared variables are the temporaries with their types and the let-bound names with type "T", a let-bound name overriding a temporary of the same name |
| BoogieExprConverter.ProductOp | src/main/java/com/amazon/quivela/checker/tactic/boogie/BoogieExprConverter.java:272-277 | only "%" is supported and becomes " mod "; every other operator fails with "Unsupported operation: " |
| BoogieExprConverter.SumOp | src/main/java/com/amazon/quivela/checker/tactic/boogie/BoogieExprConverter.java:264-270 | only "+" is supported; every other operator fails with "Unsupported operation: " |
| BoogieExprConverter.ArithText | src/main/java/com/amazon/quivela/checker/tactic/boogie/BoogieExprConverter.java:244-262 | arithmetic succeeds exactly when the operator is supported and both operands convert to integers |
| BoogieExprConverter.LogicTest | src/main/java/com/amazon/quivela/checker/tactic/boogie/BoogieExprConverter.java:213-226 | "&amp;" tests the left value, "\|" tests its negation, and any other operator fails with "op not supported: " |
| BoogieExprConverter.OpaqueEach | src/main/java/com/amazon/quivela/checker/tactic/boogie/BoogieExprConverter.java:380-385 | the parameters convert exactly when every one of them converts to the opaque form, and each string is that conversion |
| BoogieExprConverter.Checkpoint | src/main/java/com/amazon/quivela/checker/tactic/boogie/BoogieExprConverter.java:532-550 | a label saves a checkpoint exactly when the labelled value has an opaque form, and records whether it labels an invocation |
| BoogieExprConverter.Saved | src/main/java/com/amazon/quivela/checker/tactic/boogie/BoogieExprConverter.java:532-550 | saving a checkpoint records the label and keeps temporaries and let-bound names |
| BoogieExprConverter.RefBlock | src/main/java/com/amazon/quivela/checker/tactic/boogie/BoogieExprConverter.java:553-560 | the reference guard only prints |
| BoogieExprConverter.AssignBlock | src/main/java/com/amazon/quivela/checker/tactic/boogie/BoogieExprConverter.java:459-468 | an assignment needs an opaque right-hand side and an open scope, yields the assigned value, records the name as let-bound and declares it opaque in the innermost scope |
| BoogieExprConverter.InvokeParams | src/main/java/com/amazon/quivela/checker/tactic/boogie/BoogieExprConverter.java:377-382 | every argument is copied into its own fresh temporary before the call; this succeeds exactly when every argument has an opaque form |
| BoogieExprConverter.ClassDispatch | src/main/java/com/amazon/quivela/checker/tactic/boogie/BoogieExprConverter.java:409-427 | the per-class dispatch only prints |
| BoogieExprConverter.InvokeBody | src/main/java/com/amazon/quivela/checker/tactic/boogie/BoogieExprConverter.java:386-441 | the invocation sequence adds temporaries and prints, and keeps let-bound names and checkpoints |
| BoogieExprConverter.InvokeBlock | src/main/java/com/amazon/quivela/checker/tactic/boogie/BoogieExprConverter.java:369-447 | an invocation yields an opaque result and keeps let-bound names and checkpoints |
| BoogieExprConverter.CallBlock | src/main/java/com/amazon/quivela/checker/tactic/boogie/BoogieExprConverter.java:312-366 | a call of an unknown function fails; a call has the Boogie type of the function's return type; a pure function call leaves the state untouched, while a procedure call takes a temporary |
| BoogieExprConverter.NewBlock | src/main/java/com/amazon/quivela/checker/tactic/boogie/BoogieExprConverter.java:498-529 | construction yields an object id, and succeeds exactly when every constructor argument has an opaque form |
| BoogieExprConverter.NamesOfLeaf | src/main/java/com/amazon/quivela/checker/tactic/boogie/BoogieExprConverter.java:117-210 | leaves declare no names and save no checkpoints |
| BoogieExprConverter.NamesOfParen | src/main/java/com/amazon/quivela/checker/tactic/boogie/BoogieExprConverter.java:532-550 | a labelled expression adds its label to the checkpoints of its body |
| BoogieExprConverter.NamesOfControl | src/main/java/com/amazon/quivela/checker/tactic/boogie/BoogieExprConverter.java:213-310 | the names declared by a connective or a conditional are those of its parts |
| BoogieExprConverter.NamesOfCall | src/main/java/com/amazon/quivela/checker/tactic/boogie/BoogieExprConverter.java:350-529 | the names declared by a call are those of its target and arguments |
| BoogieExprConverter.NamesOfBinary | src/main/java/com/amazon/quivela/checker/tactic/boogie/BoogieExprConverter.java:196-286 | the names declared by a binary form are those of its operands |
| BoogieExprConverter.NamesOfUnary | src/main/java/com/amazon/quivela/checker/tactic/boogie/BoogieExprConverter.java:157-160 | a unary form declares the names of its operand |
| BoogieExprConverter.Labelled | src/main/java/com/amazon/quivela/checker/tactic/boogie/BoogieExprConverter.java:532-550 | a label on top of a conversion adds exactly that label to the recorded checkpoints |
| BoogieExprConverter.AddsThen | src/main/java/com/amazon/quivela/checker/tactic/boogie/BoogieExprConverter.java:19-34 | converting two parts in sequence declares the union of their names |
| BoogieExprConverter.AddsSame | src/main/java/com/amazon/quivela/checker/tactic/boogie/BoogieExprConverter.java:19-34 | a step that declares nothing leaves the recorded names unchanged |
| BoogieExprConverter.Convert | src/main/java/com/amazon/quivela/checker/tactic/boogie/BoogieExprConverter.java:117-560 | a successful conversion records exactly the let-bound names and the checkpoint labels that occur in the expression, and only grows the state |
| BoogieExprConverter.ConvertLeaf | src/main/java/com/amazon/quivela/checker/tactic/boogie/BoogieExprConverter.java:117-193 | a lookup yields its mapped name at the Boogie type of its scope type, opaque when the symbol is untracked; "..." fails with "Internal error: ... not rewritten to previous expression."; assert and admit yield "nil" exactly when their proposition converts; literals are integers or booleans |
| BoogieExprConverter.ConvertUnary | src/main/java/com/amazon/quivela/checker/tactic/boogie/BoogieExprConverter.java:157-160 | bits conversion yields a bitstring, negation a boolean, and a reference guard the value of its operand |
| BoogieExprConverter.ConvertParen | src/main/java/com/amazon/quivela/checker/tactic/boogie/BoogieExprConverter.java:532-550 | a labelled expression yields the value of its body |
| BoogieExprConverter.ConvertAssign | src/main/java/com/amazon/quivela/checker/tactic/boogie/BoogieExprConverter.java:459-468 | an assignment yields the value of its right-hand side |
| BoogieExprConverter.LogicEnter | src/main/java/com/amazon/quivela/checker/tactic/boogie/BoogieExprConverter.java:213-232 | entering the right operand of a connective indents once and declares nothing |
| BoogieExprConverter.BranchExit | src/main/java/com/amazon/quivela/checker/tactic/boogie/BoogieExprConverter.java:233-237 | leaving a branch stores the branch value, which must have an opaque form, and outdents once |
| BoogieExprConverter.Around | src/main/java/com/amazon/quivela/checker/tactic/boogie/BoogieExprConverter.java:229-237 | indenting, converting a branch and outdenting grows the state and keeps the branch's names |
| BoogieExprConverter.ConvertControl | src/main/java/com/amazon/quivela/checker/tactic/boogie/BoogieExprConverter.java:213-310 | connectives and conditionals yield an opaque temporary |
| BoogieExprConverter.ConvertCall | src/main/java/com/amazon/quivela/checker/tactic/boogie/BoogieExprConverter.java:350-529 | a function call has the type of the function's return type, an invocation is opaque and a construction is an object id |
| BoogieExprConverter.ConvertBinary | src/main/java/com/amazon/quivela/checker/tactic/boogie/BoogieExprConverter.java:196-286 | map update yields memory, map lookup an opaque value, arithmetic an integer, comparison a boolean, and a sequence the value of its second part after converting the first |
| BoogieExprConverter.BinaryValue | src/main/java/com/amazon/quivela/checker/tactic/boogie/BoogieExprConverter.java:145-286 | a sequence yields its second value; lookup, arithmetic and comparison yield their fixed types |
| BoogieExprConverter.ConvertArgs | src/main/java/com/amazon/quivela/checker/tactic/boogie/BoogieExprConverter.java:350-357 | every argument yields one value and the recorded names are those of the arguments |
| BoogieExprConverter.ConvertParams | src/main/java/com/amazon/quivela/checker/tactic/boogie/BoogieExprConverter.java:498-506 | every constructor parameter yields one value and the recorded names are those of the parameters |
| BoogieExprConverter.ConvertTag | src/main/java/com/amazon/quivela/checker/tactic/boogie/BoogieExprConverter.java:117-560 | every converted expression has the Boogie type its form determines |
| BoogieExprConverter.LeafTag | src/main/java/com/amazon/quivela/checker/tactic/boogie/BoogieExprConverter.java:117-193 | a converted leaf has the type its form determines |
| BoogieExprConverter.SimpleTag | src/main/java/com/amazon/quivela/checker/tactic/boogie/BoogieExprConverter.java:157-310 | connectives, conditionals, bits conversion and negation have the type their form determines |
| BoogieExprConverter.CallTag | src/main/java/com/amazon/quivela/checker/tactic/boogie/BoogieExprConverter.java:350-529 | calls, invocations and constructions have the type their form determines |
| BoogieExprConverter.PassedTag | src/main/java/com/amazon/quivela/checker/tactic/boogie/BoogieExprConverter.java:459-560 | references, labels and assignments have the type of the value they pass on |
| BoogieExprConverter.BinaryTag | src/main/java/com/amazon/quivela/checker/tactic/boogie/BoogieExprConverter.java:145-286 | binary forms have the type their form determines |
| BoogieExprConverter.ExprConverter.constructor | src/main/java/com/amazon/quivela/checker/tactic/boogie/BoogieExprConverter.java:36-44 | a new converter starts with the given scopes, temporaries and output, and no let-bound names, checkpoints or values |
| BoogieExprConverter.ExprConverter.NewTemporary | src/main/java/com/amazon/quivela/checker/tactic/boogie/BoogieExprConverter.java:80-92 | the method takes the temporary that the specification function describes, and leaves the value stack alone |
| BoogieExprConverter.ExprConverter.GetDeclaredVars | src/main/java/com/amazon/quivela/checker/tactic/boogie/BoogieExprConverter.java:50-57 | the method's loop yields exactly the declared variables of the specification |
| BoogieExprConverter.ExprConverter.Apply | src/main/java/com/amazon/quivela/checker/tactic/boogie/BoogieExprConverter.java:117-560 | applying the converter pushes exactly the value the specification computes and moves to its state; a failure leaves state and stack unchanged |
| BoogieExprConverter.ExprConverter.GetValue | src/main/java/com/amazon/quivela/checker/tactic/boogie/BoogieExprConverter.java:63-70 | more than one value fails with "Values lost during conversion", an empty stack with a null dereference, and one value yields its opaque form |
| BoogieExprConverter.ExprConverter.GetValueAs | src/main/java/com/amazon/quivela/checker/tactic/boogie/BoogieExprConverter.java:72-78 | as above, but the single value is converted to the requested type |
| BoogieObjectConverter.FieldIds | src/main/java/com/amazon/quivela/checker/tactic/boogie/BoogieObjectConverter.java:86-93 | the object's fields are the names of its constructor parameters, in order |
| BoogieObjectConverter.TypedParamsStep | src/main/java/com/amazon/quivela/checker/tactic/boogie/BoogieObjectConverter.java:99-111 | one loop step appends the next constructor parameter as "name:T", separated by a comma from the previous ones |
| BoogieObjectConverter.FieldStores | src/main/java/com/amazon/quivela/checker/tactic/boogie/BoogieObjectConverter.java:126-129 | the constructor stores each parameter into the field of the same name, one statement per field, in order |
| BoogieObjectConverter.ConstructorTemporaryNames | src/main/java/com/amazon/quivela/checker/tactic/boogie/BoogieObjectConverter.java:116-118 | the constructor's object and memory temporaries are "internal.tmp0" and "internal.tmp1" |
| BoogieObjectConverter.ConstructorStoresFields | src/main/java/com/amazon/quivela/checker/tactic/boogie/BoogieObjectConverter.java:120-133 | the constructor body declares its two temporaries, starts from the empty object and default memory, stores every field parameter, and sets the class id |
| BoogieObjectConverter.VarMap | src/main/java/com/amazon/quivela/checker/tactic/boogie/BoogieObjectConverter.java:208-211 | inside a method a name is mapped when it is a field or a parameter; a parameter maps to itself and shadows a field, and a field maps to its slot in the object memory |
| BoogieObjectConverter.VarDecls | src/main/java/com/amazon/quivela/checker/tactic/boogie/BoogieObjectConverter.java:216-219 | one declaration is printed per declared variable, with its type |
| BoogieObjectConverter.InitsExact | src/main/java/com/amazon/quivela/checker/tactic/boogie/BoogieObjectConverter.java:221-226 | a variable is initialised to the default value exactly when it is declared with type "T" |
| BoogieObjectConverter.ConvertMethod | src/main/java/com/amazon/quivela/checker/tactic/boogie/BoogieObjectConverter.java:165-237 | a method converts only when it has a body and its formal parameters convert |
| BoogieObjectConverter.BodyEffect | src/main/java/com/amazon/quivela/checker/tactic/boogie/BoogieObjectConverter.java:201-237 | converting a method body closes the method's frame, records the body's checkpoint labels, returns to the enclosing indentation, and keeps constants, fields and recorded methods |
| BoogieObjectConverter.MethodEffect | src/main/java/com/amazon/quivela/checker/tactic/boogie/BoogieObjectConverter.java:165-237 | converting a method records its definition and its parameter names under its name, records its checkpoint labels, interns its name and its text as constants keeping the table valid, and leaves scopes, fields and indentation as they were |
| BoogieObjectConverter.MethodRecorded | src/main/java/com/amazon/quivela/checker/tactic/boogie/BoogieObjectConverter.java:169-182 | after a method, the recorded definitions and signatures gain exactly that method's name |
| BoogieObjectConverter.EnterEffect | src/main/java/com/amazon/quivela/checker/tactic/boogie/BoogieObjectConverter.java:165-199 | entering a method opens one frame holding its parameters, records the method and its signature, interns its name and text, and indents once |
| BoogieObjectConverter.ParamNames | src/main/java/com/amazon/quivela/checker/tactic/boogie/BoogieObjectConverter.java:180-182 | the recorded signature is the list of the method's formal parameter names |
| BoogieObjectConverter.EnterKeepsConstants | src/main/java/com/amazon/quivela/checker/tactic/boogie/BoogieObjectConverter.java:174-175 | interning a method's name and text gives it a procedure id and keeps the constants table valid |
| BoogieObjectConverter.SigsStep | src/main/java/com/amazon/quivela/checker/tactic/boogie/BoogieObjectConverter.java:169-182 | recording a method keeps every recorded signature equal to the parameter names of the recorded definition |
| BoogieObjectConverter.MethodsKeep | src/main/java/com/amazon/quivela/checker/tactic/boogie/BoogieObjectConverter.java:71-77 | converting a list of methods leaves scopes, fields and indentation unchanged and keeps the constants table valid |
| BoogieObjectConverter.MethodsNamed | src/main/java/com/amazon/quivela/checker/tactic/boogie/BoogieObjectConverter.java:71-77 | after a list of methods the recorded definitions and signatures gain exactly their names |
| BoogieObjectConverter.MethodsAgree | src/main/java/com/amazon/quivela/checker/tactic/boogie/BoogieObjectConverter.java:71-77 | signatures and definitions stay in agreement over a list of methods |
| BoogieObjectConverter.MethodsLabelled | src/main/java/com/amazon/quivela/checker/tactic/boogie/BoogieObjectConverter.java:71-77 | the checkpoints recorded over a list of methods are exactly those of their bodies |
| BoogieObjectConverter.ConvertNew | src/main/java/com/amazon/quivela/checker/tactic/boogie/BoogieObjectConverter.java:45-139 | only an object construction converts, any other node fails with "Cannot convert"; the fields become the constructor parameters, the scopes are restored, every method is recorded with agreeing signatures, all checkpoint labels are collected and the constants table stays valid |
| BoogieObjectConverter.FieldReadWhereStored | src/main/java/com/amazon/quivela/checker/tactic/boogie/BoogieObjectConverter.java:126-128 | a field read inside a method addresses the same memory slot the constructor stores that field parameter into |
| BoogieObjectConverter.ObjectConverter.constructor | src/main/java/com/amazon/quivela/checker/tactic/boogie/BoogieObjectConverter.java:34-43 | a new converter has the given context, shared tables and output, and has collected nothing |
| BoogieObjectConverter.ObjectConverter.Apply | src/main/java/com/amazon/quivela/checker/tactic/boogie/BoogieObjectConverter.java:45-139 | applying the converter moves it to exactly the state the specification function computes, or fails with its error |
| BoogieObjectConverter.ObjectConverter.ApplyNew | src/main/java/com/amazon/quivela/checker/tactic/boogie/BoogieObjectConverter.java:80-139 | the construction case moves to the state the specification function computes |
| BoogieObjectConverter.ObjectConverter.EnterFieldFrame | src/main/java/com/amazon/quivela/checker/tactic/boogie/BoogieObjectConverter.java:82-93 | a field frame is pushed and every constructor parameter is declared opaque in it and recorded as a field, in order |
| BoogieObjectConverter.ObjectConverter.EmitConstructor | src/main/java/com/amazon/quivela/checker/tactic/boogie/BoogieObjectConverter.java:99-137 | the constructor procedure printed is the one the specification describes |
| BoogieObjectConverter.ObjectConverter.EmitNewHeader | src/main/java/com/amazon/quivela/checker/tactic/boogie/BoogieObjectConverter.java:99-111 | the loop prints the constructor header with every parameter typed |
| BoogieObjectConverter.ObjectConverter.EmitConstructorBody | src/main/java/com/amazon/quivela/checker/tactic/boogie/BoogieObjectConverter.java:116-133 | the loop prints exactly the specified constructor body |
| BoogieObjectConverter.ObjectConverter.ApplyMethods | src/main/java/com/amazon/quivela/checker/tactic/boogie/BoogieObjectConverter.java:71-77 | the loop over methods moves to the state the specification function computes |
| BoogieObjectConverter.ObjectConverter.BodyVarMap | src/main/java/com/amazon/quivela/checker/tactic/boogie/BoogieObjectConverter.java:208-211 | the method builds exactly the specified name map |
| BoogieObjectConverter.ObjectConverter.ApplyMethod | src/main/java/com/amazon/quivela/checker/tactic/boogie/BoogieObjectConverter.java:165-237 | converting one method moves to the state the specification function computes |
| BoogieObjectConverter.ObjectConverter.Enter | src/main/java/com/amazon/quivela/checker/tactic/boogie/BoogieObjectConverter.java:167-175 | entering a method opens its frame, records it and interns its constants |
| BoogieObjectConverter.ObjectConverter.DeclareParams | src/main/java/com/amazon/quivela/checker/tactic/boogie/BoogieObjectConverter.java:180-199 | recording the signature adds the parameters as opaque symbols and prints the procedure header |
| BoogieObjectConverter.ObjectConverter.ApplyBody | src/main/java/com/amazon/quivela/checker/tactic/boogie/BoogieObjectConverter.java:201-237 | converting the body moves to the state the specification function computes |
| BoogieObjectConverter.ObjectConverter.Finish | src/main/java/com/amazon/quivela/checker/tactic/boogie/BoogieObjectConverter.java:214-237 | finishing a body records its checkpoints, prints declarations, initialisations, body and result, and closes the frame |
| BoogieObjectConverter.ObjectConverter.EmitHeader | src/main/java/com/amazon/quivela/checker/tactic/boogie/BoogieObjectConverter.java:185-199 | the procedure header printed is the one the specification describes |
| BoogieObjectConverter.ObjectConverter.EmitTail | src/main/java/com/amazon/quivela/checker/tactic/boogie/BoogieObjectConverter.java:216-235 | the declarations, initialisations, body text and result are printed as specified |
| BoogieObjectConverter.ObjectConverter.EmitDecls | src/main/java/com/amazon/quivela/checker/tactic/boogie/BoogieObjectConverter.java:216-219 | the loop prints one declaration per variable |
| BoogieObjectConverter.ObjectConverter.EmitInits | src/main/java/com/amazon/quivela/checker/tactic/boogie/BoogieObjectConverter.java:221-226 | the loop prints exactly the specified initialisations |

## Left out

- Proof task scheduling is not part of this model: the task queue, the verifier processes, polling, timing and status output. Each check records the (program text, priority) pairs it enqueues, in order.
- The prelude and axiom text written by `BoogieUtil`, its file and process I/O and the cache file are not modelled; `Auto.java` and `BoundsAuto.java` are not part of this model. The SHA-384 digest of a program is a parameter of the cache.
- Reading and parsing an imported file is not modelled. The files an import loads are a parameter, and the file separator is a parameter.
- `Main.java` and the formatting of `CheckException` messages with absolute file paths are not part of this model.
- Real arithmetic: `real_pow`, real division and the real-number axioms appear only as emitted text.
- Trees are values. The in-place `replaceBy` updates, node identity and parent links are not modelled, so aliasing between nodes is not captured.
- `Syntax.Render` stands in for the parser's `toString`. Token spacing and the exact text of printed nodes are not captured.
- Java hash-set and hash-map iteration order is modelled as lexicographic order. This covers declared variables, fact variables and checkpoint maps; see module `Order`.
- Java `int` overflow of counters and of the fresh-name loops is not modelled. Counters are unbounded naturals.
- Inline.Walk: the re-walk of rewritten methods is bounded by fuel equal to the rendered size of the expression. A walk that would need more fails with the internal error `OutOfFuel`. It is not proved that the bound always suffices.
- Unfold.Transform: the second traversal that Unfold.java starts after a logic operator or a `new` substitutes nothing. It is modelled as absent; it could only re-raise an error already raised on the arguments.
- Inline.OuterLocals collects the references in the outer method's body, as written. The outer method's formal parameters are not added to the set of names to avoid.
- BoogieExprConverter.Saved ignores `lastSplitHeapId`, which `saveCheckpoint` never reads. The converter's `invokedMethods` map is never filled in the source and is not modelled.
- The private `doMapAssign` of BoogieExprConverter.java (lines 476-496) is never called and is not modelled. Neither is the commented-out dispatch code of BoogieObjectConverter.java (lines 239-291).
- BoogieExprConverter.ExprConverter.Apply leaves the converter unchanged when conversion fails. The source leaves partial output behind, but the exception ends the check in any case.
- `Value.toString` always throws; it is never called by the modelled code and is not modelled.
- The traversal accessors over parser nodes, such as the actual-parameter, identifier, method, new-parameter and bisimulation-property collectors, are folded into accessor functions on the datatypes. `BoogieMemberDecls`, `BoogieExprState` and `Checkpoint` are not part of this model. A checkpoint is its label and whether it labels an invocation.
- The order in which the checker visits a subgoal's children (goal, bound, proof) comes from the generated visitor, which is not part of this model; it is assumed.
- The grammar levels of children that the source never inspects are taken from the calculus' grammar, which is not part of this model.
- Inline.InlineCall: its own contract gives only the refusal of a missing method; what an inlined invocation becomes is Inline.InlineCallRewrites and Inline.InlinedCallStatements.
- Inline.MIWalk: its own contract gives only the shape of the result; the rewriting of one invocation is Inline.InlineCallRewrites, and what is left alone is Inline.MIUntouched.
- Inline.MIList: its own contract gives only the shape of the result; the rewriting of one invocation is Inline.InlineCallRewrites, and what is left alone is Inline.MIUntouched.
- Inline.MIEnv: its own contract gives only the shape of the result; the rewriting of one invocation is Inline.InlineCallRewrites, and what is left alone is Inline.MIUntouched.
- Inline.MIProps: its own contract gives only the shape of the result; the rewriting of one invocation is Inline.InlineCallRewrites, and what is left alone is Inline.MIUntouched.
- Inline.InlineMethod: its own contract does not give the rewritten method bodies; they are stated for one invocation (Inline.InlineCallRewrites) and for none (Inline.DoInlineUntouched), not for a body with several.
- Inline.InlineMethods: its own contract does not give the rewritten method bodies; they are stated for one invocation (Inline.InlineCallRewrites) and for none (Inline.DoInlineUntouched), not for a body with several.
- Inline.DoInline: its own contract does not give the rewritten method bodies; they are stated for one invocation (Inline.InlineCallRewrites) and for none (Inline.DoInlineUntouched), not for a body with several.
- Inline.Walk: its own contract gives only the context and lengths; the result is stated with no site (Inline.WalkNoSite, Inline.TransformNoSite) and, for the first parameter holding an object, up to the parameter walk and the splice, with the later parameters left unwalked (Inline.InlineFires, Inline.SpliceReplacesParameter); the rebuilt `new` after the splice and nested objects are not stated.
- Inline.WalkNew: its own contract gives only the context and lengths; the result is stated with no site (Inline.WalkNoSite, Inline.TransformNoSite) and, for the first parameter holding an object, up to the parameter walk and the splice, with the later parameters left unwalked (Inline.InlineFires, Inline.SpliceReplacesParameter); the rebuilt `new` after the splice and nested objects are not stated.
- Inline.WalkNewParams: its own contract gives only the context and lengths; the result is stated with no site (Inline.WalkNoSite, Inline.TransformNoSite) and, for the first parameter holding an object, up to the parameter walk and the splice, with the later parameters left unwalked (Inline.InlineFires, Inline.SpliceReplacesParameter); the rebuilt `new` after the splice and nested objects are not stated.
- Inline.WalkList: its own contract gives only the context and lengths; the result is stated with no site (Inline.WalkNoSite, Inline.TransformNoSite) and, for the first parameter holding an object, up to the parameter walk and the splice, with the later parameters left unwalked (Inline.InlineFires, Inline.SpliceReplacesParameter); the rebuilt `new` after the splice and nested objects are not stated.
- Inline.WalkProp: its own contract gives only the context and lengths; the result is stated with no site (Inline.WalkNoSite, Inline.TransformNoSite) and, for the first parameter holding an object, up to the parameter walk and the splice, with the later parameters left unwalked (Inline.InlineFires, Inline.SpliceReplacesParameter); the rebuilt `new` after the splice and nested objects are not stated.
- Inline.WalkEnv: its own contract gives only the context and lengths; the result is stated with no site (Inline.WalkNoSite, Inline.TransformNoSite) and, for the first parameter holding an object, up to the parameter walk and the splice, with the later parameters left unwalked (Inline.InlineFires, Inline.SpliceReplacesParameter); the rebuilt `new` after the splice and nested objects are not stated.
- Inline.WalkProps: its own contract gives only the context and lengths; the result is stated with no site (Inline.WalkNoSite, Inline.TransformNoSite) and, for the first parameter holding an object, up to the parameter walk and the splice, with the later parameters left unwalked (Inline.InlineFires, Inline.SpliceReplacesParameter); the rebuilt `new` after the splice and nested objects are not stated.
- VariableReferenceCollector.Refs: its own contract states soundness only; exactness, both directions and the error cases, is VariableReferenceCollector.RefsAgree.
- Checker.UnfoldStep: runs the unfold tactic with the corrected linearity guard of Unfold.java:106-117 (see ## Findings), so with f(x, y) := x it leaves the call f(a, b) in place, where the source unfolds it to a.
- Checker.InlineStep: runs the inline tactic with the corrected bounds guard of Inline.java:278-286, so a call with too few actuals is inlined with 0 for each missing actual (a.f() against f(y) { y }), where the source throws an index-out-of-bounds exception.
- Checker.RewriteStep: runs the rewrite tactic with the corrected root substitution of Substituter.java:32-36, so a fact whose right side instantiates to a non-identifier at the root of the obligation (f(x) ≈ x + 1 on f(a())) rewrites it, where the source throws.
- Checker.BisimStep: runs the bisimulation tactic with the corrected constructor clause of Bisim.java:170, so it emits `ensures functionState1==functionState2;` where the source emits the tautology `functionState1==functionState1`.
- Checker.HybridEnds: substitutes the start and end bounds with the corrected root substitution of Substituter.java:32-36, so a left side that is the bare variable succeeds where the source throws; on the facts the hybrid tactic accepts, whose left side is a call, the two agree.
- Checker.SubgoalStep: runs the corrected tactics throughout: the unfold linearity guard of Unfold.java:106-117 leaves f(a, b) in place with f(x, y) := x, where the source unfolds it to a; the inline bounds guard of Inline.java:278-286 inlines a.f() against f(y) { y } with 0 for y, where the source throws an index-out-of-bounds exception; the hybrid distance check of Checker.java:913-918 refuses a distance x * eps, which the source accepts; the root substitution of Substituter.java:32-36 rewrites a whole obligation, where the source throws; the constructor procedure of a bisimulation ends with `functionState1==functionState2` where Bisim.java:170 emits `functionState1==functionState1` (see ## Findings).
- Checker.RunTactic: runs the corrected tactics throughout: the unfold linearity guard of Unfold.java:106-117 leaves f(a, b) in place with f(x, y) := x, where the source unfolds it to a; the inline bounds guard of Inline.java:278-286 inlines a.f() against f(y) { y } with 0 for y, where the source throws an index-out-of-bounds exception; the hybrid distance check of Checker.java:913-918 refuses a distance x * eps, which the source accepts; the root substitution of Substituter.java:32-36 rewrites a whole obligation, where the source throws; the constructor procedure of a bisimulation ends with `functionState1==functionState2` where Bisim.java:170 emits `functionState1==functionState1` (see ## Findings).
- Checker.RunTactics: runs the corrected tactics throughout: the unfold linearity guard of Unfold.java:106-117 leaves f(a, b) in place with f(x, y) := x, where the source unfolds it to a; the inline bounds guard of Inline.java:278-286 inlines a.f() against f(y) { y } with 0 for y, where the source throws an index-out-of-bounds exception; the hybrid distance check of Checker.java:913-918 refuses a distance x * eps, which the source accepts; the root substitution of Substituter.java:32-36 rewrites a whole obligation, where the source throws; the constructor procedure of a bisimulation ends with `functionState1==functionState2` where Bisim.java:170 emits `functionState1==functionState1` (see ## Findings).
- Checker.TheoremStep: runs the corrected tactics throughout: the unfold linearity guard of Unfold.java:106-117 leaves f(a, b) in place with f(x, y) := x, where the source unfolds it to a; the inline bounds guard of Inline.java:278-286 inlines a.f() against f(y) { y } with 0 for y, where the source throws an index-out-of-bounds exception; the hybrid distance check of Checker.java:913-918 refuses a distance x * eps, which the source accepts; the root substitution of Substituter.java:32-36 rewrites a whole obligation, where the source throws; the constructor procedure of a bisimulation ends with `functionState1==functionState2` where Bisim.java:170 emits `functionState1==functionState1` (see ## Findings).
- Checker.RunDecl: runs the corrected tactics throughout: the unfold linearity guard of Unfold.java:106-117 leaves f(a, b) in place with f(x, y) := x, where the source unfolds it to a; the inline bounds guard of Inline.java:278-286 inlines a.f() against f(y) { y } with 0 for y, where the source throws an index-out-of-bounds exception; the hybrid distance check of Checker.java:913-918 refuses a distance x * eps, which the source accepts; the root substitution of Substituter.java:32-36 rewrites a whole obligation, where the source throws; the constructor procedure of a bisimulation ends with `functionState1==functionState2` where Bisim.java:170 emits `functionState1==functionState1` (see ## Findings).
- Checker.RunDecls: runs the corrected tactics throughout: the unfold linearity guard of Unfold.java:106-117 leaves f(a, b) in place with f(x, y) := x, where the source unfolds it to a; the inline bounds guard of Inline.java:278-286 inlines a.f() against f(y) { y } with 0 for y, where the source throws an index-out-of-bounds exception; the hybrid distance check of Checker.java:913-918 refuses a distance x * eps, which the source accepts; the root substitution of Substituter.java:32-36 rewrites a whole obligation, where the source throws; the constructor procedure of a bisimulation ends with `functionState1==functionState2` where Bisim.java:170 emits `functionState1==functionState1` (see ## Findings).
- Checker.Check: runs the corrected tactics throughout: the unfold linearity guard of Unfold.java:106-117 leaves f(a, b) in place with f(x, y) := x, where the source unfolds it to a; the inline bounds guard of Inline.java:278-286 inlines a.f() against f(y) { y } with 0 for y, where the source throws an index-out-of-bounds exception; the hybrid distance check of Checker.java:913-918 refuses a distance x * eps, which the source accepts; the root substitution of Substituter.java:32-36 rewrites a whole obligation, where the source throws; the constructor procedure of a bisimulation ends with `functionState1==functionState2` where Bisim.java:170 emits `functionState1==functionState1` (see ## Findings).
- Checker.ProofChecker.Theorem: runs the corrected tactics throughout: the unfold linearity guard of Unfold.java:106-117 leaves f(a, b) in place with f(x, y) := x, where the source unfolds it to a; the inline bounds guard of Inline.java:278-286 inlines a.f() against f(y) { y } with 0 for y, where the source throws an index-out-of-bounds exception; the hybrid distance check of Checker.java:913-918 refuses a distance x * eps, which the source accepts; the root substitution of Substituter.java:32-36 rewrites a whole obligation, where the source throws; the constructor procedure of a bisimulation ends with `functionState1==functionState2` where Bisim.java:170 emits `functionState1==functionState1` (see ## Findings).
- Checker.ProofChecker.Declaration: runs the corrected tactics throughout: the unfold linearity guard of Unfold.java:106-117 leaves f(a, b) in place with f(x, y) := x, where the source unfolds it to a; the inline bounds guard of Inline.java:278-286 inlines a.f() against f(y) { y } with 0 for y, where the source throws an index-out-of-bounds exception; the hybrid distance check of Checker.java:913-918 refuses a distance x * eps, which the source accepts; the root substitution of Substituter.java:32-36 rewrites a whole obligation, where the source throws; the constructor procedure of a bisimulation ends with `functionState1==functionState2` where Bisim.java:170 emits `functionState1==functionState1` (see ## Findings).
- Checker.ProofChecker.Development: runs the corrected tactics throughout: the unfold linearity guard of Unfold.java:106-117 leaves f(a, b) in place with f(x, y) := x, where the source unfolds it to a; the inline bounds guard of Inline.java:278-286 inlines a.f() against f(y) { y } with 0 for y, where the source throws an index-out-of-bounds exception; the hybrid distance check of Checker.java:913-918 refuses a distance x * eps, which the source accepts; the root substitution of Substituter.java:32-36 rewrites a whole obligation, where the source throws; the constructor procedure of a bisimulation ends with `functionState1==functionState2` where Bisim.java:170 emits `functionState1==functionState1` (see ## Findings).
- Checker.ProofChecker.Rewrite: runs the rewrite tactic with the corrected root substitution of Substituter.java:32-36, so a fact whose right side instantiates to a non-identifier at the root of the obligation (f(x) ≈ x + 1 on f(a())) rewrites it, where the source throws.
- Checker.ProofChecker.Hybrid: runs the hybrid tactic with the corrected distance check of Checker.java:913-918, so it refuses a hybrid fact whose distance is x * eps, which the source accepts (see ## Findings).
- Bisim.BothNew: emits the corrected constructor clause of Bisim.java:170 (see ## Findings): `ensures functionState1==functionState2;` where the source emits the tautology `functionState1==functionState1`.
- Bisim.Prepare: emits the corrected constructor clause of Bisim.java:170 (see ## Findings): `ensures functionState1==functionState2;` where the source emits the tautology `functionState1==functionState1`.
- Bisim.Finish: emits the corrected constructor clause of Bisim.java:170 (see ## Findings): `ensures functionState1==functionState2;` where the source emits the tautology `functionState1==functionState1`.
- Bisim.CheckTask: emits the corrected constructor clause of Bisim.java:170 (see ## Findings): `ensures functionState1==functionState2;` where the source emits the tautology `functionState1==functionState1`.
- Bisim.PrintBothNewOpen: emits the corrected constructor clause of Bisim.java:170 (see ## Findings): `ensures functionState1==functionState2;` where the source emits the tautology `functionState1==functionState1`.
- Bisim.Bisim.Check: emits the corrected constructor clause of Bisim.java:170 (see ## Findings): `ensures functionState1==functionState2;` where the source emits the tautology `functionState1==functionState1`.
- Bisim.Bisim.PrepareStage: emits the corrected constructor clause of Bisim.java:170 (see ## Findings): `ensures functionState1==functionState2;` where the source emits the tautology `functionState1==functionState1`.
- Bisim.Bisim.FinishStage: emits the corrected constructor clause of Bisim.java:170 (see ## Findings): `ensures functionState1==functionState2;` where the source emits the tautology `functionState1==functionState1`.
- Bisim.Bisim.BothNewStage: emits the corrected constructor clause of Bisim.java:170 (see ## Findings): `ensures functionState1==functionState2;` where the source emits the tautology `functionState1==functionState1`.
- Bisim.Bisim.OpenStage: emits the corrected constructor clause of Bisim.java:170 (see ## Findings): `ensures functionState1==functionState2;` where the source emits the tautology `functionState1==functionState1`.
- Rewriter.Match: instantiates the right side with the corrected root substitution of Substituter.java:32-36 (see ## Findings), so a right side that instantiates to a non-identifier replacing the whole tree, as f(x) ≈ x + 1 on f(a()), succeeds where the source throws.
- Rewriter.RewriteAll: instantiates the right side with the corrected root substitution of Substituter.java:32-36 (see ## Findings), so a right side that instantiates to a non-identifier replacing the whole tree, as f(x) ≈ x + 1 on f(a()), succeeds where the source throws.
- Rewriter.RewriteRoot: instantiates the right side with the corrected root substitution of Substituter.java:32-36 (see ## Findings), so a right side that instantiates to a non-identifier replacing the whole tree, as f(x) ≈ x + 1 on f(a()), succeeds where the source throws.
- Rewriter.RewriteLeaf: instantiates the right side with the corrected root substitution of Substituter.java:32-36 (see ## Findings), so a right side that instantiates to a non-identifier replacing the whole tree, as f(x) ≈ x + 1 on f(a()), succeeds where the source throws.
- Rewriter.RewriteAll: its own contract gives the unchanged and top-replacing cases; the result is stated for the match at the root after the walk (Rewriter.RewriteRoot) and for a single lookup or literal (Rewriter.RewriteLeaf), not for every site of a larger tree.
- PrettyPrint.Newline: a line break is the character `\n`; the source prints the platform line separator, which is `\r\n` on Windows.
- PrettyPrint.PrettyPrintStream.Println: a line break is the character `\n`; the source prints the platform line separator, which is `\r\n` on Windows.

## Findings

| source | as written | input that shows it | evidently intended | confidence | as-written member | corrected member |
|---|---|---|---|---|---|---|
| src/main/java/com/amazon/quivela/checker/visitor/Substituter.java:32-36 | a lookup mapped to a non-identifier replaces its nearest enclosing expression node through its parent, and the root has no parent | rewriting with a fact whose right-hand side is the bare variable x, applied to the tree `x` | the root is replaced and recorded as the new top | not executed | Substituter.SubstituteRootAsWritten | Substituter.SubstituteRootCorrected |
| src/main/java/com/amazon/quivela/checker/tactic/Unfold.java:106-117 | the linearity guard takes the maximum and minimum use count over the formals that are used, so an unused formal passes | unfolding f(x, y) := x in f(a, b), which drops b | every formal is used exactly once | not executed | Unfold.UnusedFormalAccepted | Unfold.CorrectedAcceptance |
| src/main/java/com/amazon/quivela/checker/tactic/Inline.java:278-286 | the guard `actualParams.size() >= i` lets index i equal the number of actuals | inlining a.f() against a method f(y) { y }, which reads actual 0 of an empty list: "Index 0 out of bounds for length 0" | `actualParams.size() > i` | not executed | Inline.ShortCallAsWritten | Inline.ShortCallCorrected |
| src/main/java/com/amazon/quivela/checker/Checker.java:913-918 | the hybrid check looks for x only among the expression lookups inside env terms of the distance | a hybrid over x whose distance is x * eps | a distance that mentions x anywhere is refused | not executed | Checker.HybridDistanceFinding | Checker.HybridRefusesVariableInDistance |
| src/main/java/com/amazon/quivela/checker/tactic/Bisim.java:170 | the constructor procedure ends with `ensures functionState1==functionState1;`, a tautology | any bisimulation of two objects | `functionState1==functionState2`, as the method procedures ensure | not executed | Bisim.BothNewClauseAsWritten | Bisim.BothNewClauseCorrected |
