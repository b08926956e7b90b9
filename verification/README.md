# class-to-string in Dafny

This project models the core of the Java library *class-to-string*
(package `se.ludvigwesterdahl.lib.cts`). The library walks the fields of a
class structure and reports three kinds of callbacks to its observers:
`enterNode`, `consumeLeaf` and `leaveNode`. Each callback carries a
`CtsFieldChain`, the path of fields from the root to the current position.
Blockers are predicates over a chain, and some of them keep counters that
the callbacks update. Generation strategies turn the callbacks into text.

The model consists of:

- **Value types.**
  - `Identifiers`: the four-part `Identifier` of `Identifier.java`, and the two-part `Ident` (type, optional name) with `matches` and `stripName` that every caller uses.
  - `Fields`: `CtsField`.
  - `Chains`: `CtsFieldChain`. Its path invariant is the subset type `FieldChain`.
  - A Java `Class<?>` is represented by its simple name.
- **Configuration store.**
  - `Generator`: `ClassToStringGenerator` as a class holding its three mutable tables.
- **The observer protocol.**
  - `Traces`: a traversal is a tree of chains whose children extend their parent by one field.
  - Its event sequence is `Enter | Consume | Leave`.
  - The protocol of `Observer.java` is proved about it: starts at the root, ends at the root, balanced.
- **Blockers.**
  - `Blockers`: SimpleBlocker, TransientBlocker, StaticBlocker, LeafBlocker.
  - `BlockingPublicField`: PublicFieldBlocker.
  - `LoopBlocking`: LoopBlocker.
  - `OldMaxDepth`: the `blockers` MaxDepthBlocker.
  - `Blocker`: the `blocker` MaxDepthBlocker and LeafBlocker.
- **Generation strategies.**
  - `FlatGeneration`: FlatGenerationStrategy and its Builder.
  - `JsonTemplate`: the sample's JsonGenerationStrategy.
- **Pipe.**
  - `Pipe`: PipeMessage and its Builder.

Every stateful observer follows the same pattern:

- A Dafny class with the Java fields.
- A pure `State()` view of the class.
- A pure `Step` function giving the effect of one callback.
- A `Run` function folding `Step` over a trace.

Each callback method is proved to change the state exactly as `Step` says. The two generation strategies, `FlatGeneration.FlatGenerationStrategy` and `JsonTemplate.JsonGenerationStrategy`, also have a `Traverse` loop method proved to agree with `Run`. The blockers have no such method. The properties of a whole traversal are lemmas about `Run`.

Java `null` is an `Option`, and a thrown exception is an `Err` result (or a `Fail` outcome for a method returning `this`). An exception leaves the state untouched. Java `int` values are Dafny integers, and field modifiers are 32-bit vectors tested against the JVM access flags of table 4.5-A, section 4.5 of The Java Virtual Machine Specification.

Paths in the table below are relative to the repository root.

## Model

| member | source | states |
|---|---|---|
| Identifiers.NewLeaf | src/main/java/se/ludvigwesterdahl/lib/cts/Identifier.java:24-42 | Any null argument gives NullPointerException. A blank node name is rejected ("nodeName cannot be blank") before a blank leaf name ("leafName cannot be blank"). Success holds exactly when all four are present and both names are non-blank, and yields a leaf holding exactly the arguments. |
| Identifiers.NewNode | src/main/java/se/ludvigwesterdahl/lib/cts/Identifier.java:44-48 | A null type is rejected. Otherwise the result is a node with the given type, no node name and no leaf part. |
| Identifiers.NewNamedNode | src/main/java/se/ludvigwesterdahl/lib/cts/Identifier.java:50-59 | Null arguments are rejected, and a blank name gives "nodeName cannot be blank". Success holds exactly for a present, non-blank name and yields a node with that name and no leaf part. |
| Identifiers.FactoryKinds | src/main/java/se/ludvigwesterdahl/lib/cts/Identifier.java:24-91 | newLeaf only builds leaves, and both newNode overloads only build nodes. mapLeaf fails with "cannot map a node to a leaf" exactly on nodes. A leaf given bad arguments fails for another reason, and a successful map turns a leaf into a leaf. |
| Identifiers.Identifier.MapLeaf | src/main/java/se/ludvigwesterdahl/lib/cts/Identifier.java:85-91 | On a node it fails with "cannot map a node to a leaf". On success the node type and name are kept, only the leaf part is replaced, and the result is a leaf. With valid arguments a leaf always maps. |
| Identifiers.Identifier.Equals | src/main/java/se/ludvigwesterdahl/lib/cts/Identifier.java:98-118 | equals holds exactly for a non-null identifier with the same four components. |
| Identifiers.EqualityAcrossFactories | src/main/java/se/ludvigwesterdahl/lib/cts/Identifier.java:98-118 | Across two factory calls: two leaves are equal exactly when all four arguments are equal. Two named nodes are equal exactly when type and name are equal, and two unnamed nodes exactly when their types are. A node never equals a leaf. |
| Identifiers.NewInstance | src/test/java/se/ludvigwesterdahl/lib/cts/IdentifierTest.java:40-44 | newInstance(type) rejects null. Otherwise it yields a nameless identifier of that type. |
| Identifiers.NewNamedInstance | src/test/java/se/ludvigwesterdahl/lib/cts/IdentifierTest.java:25-38 | newInstance(type, name) rejects null arguments, and rejects a blank name with "name cannot be blank". Otherwise it yields exactly (type, name). |
| Identifiers.Ident.StripName | src/test/java/se/ludvigwesterdahl/lib/cts/IdentifierTest.java:132-142 | stripName keeps the type and drops the name. |
| Identifiers.Ident.Matches | src/test/java/se/ludvigwesterdahl/lib/cts/IdentifierTest.java:72-118 | A match has the same type and is never null. Every identifier matches itself. When either name is absent, the types alone decide. When both are named, the identifiers must be equal. |
| Identifiers.MatchesCharacterised | src/test/java/se/ludvigwesterdahl/lib/cts/IdentifierTest.java:72-118 | matches holds exactly when the types are equal and the names are equal or either is absent. It is symmetric and reflexive, and it never matches null. |
| Identifiers.StripNameIsNameless | src/test/java/se/ludvigwesterdahl/lib/cts/IdentifierTest.java:132-142 | stripName of (T, n) equals newInstance(T). |
| Identifiers.MatchesExamples | src/test/java/se/ludvigwesterdahl/lib/cts/IdentifierTest.java:72-118 | The test's match table, and the blank-name rejection. |
| Fields.NewNode | src/main/java/se/ludvigwesterdahl/lib/cts/CtsField.java:19-23 | A null identifier is rejected. Otherwise the identifier and modifiers are stored unchanged and the field is a node. |
| Fields.NewLeaf | src/main/java/se/ludvigwesterdahl/lib/cts/CtsField.java:25-29 | A null identifier is rejected. Otherwise the identifier and modifiers are stored unchanged and the field is a leaf. |
| Fields.CtsField.Equals | src/main/java/se/ludvigwesterdahl/lib/cts/CtsField.java:48-67 | equals holds exactly for a non-null field with the same identifier, modifiers and node flag. |
| Fields.FactoriesAndEquality | src/test/java/se/ludvigwesterdahl/lib/cts/CtsFieldTest.java:15-46 | A node and a leaf from the same arguments are unequal. Two fields of the same kind are equal exactly when their arguments are. |
| Chains.NewRootInstance | src/main/java/se/ludvigwesterdahl/lib/cts/CtsFieldChain.java:26-31 | A null type is rejected. Otherwise the result is a one-field (root) chain whose head is a node with the nameless identifier of the type and modifiers 0. Its type proves the path invariant holds. |
| Chains.CtsFieldChain.Chain | src/main/java/se/ludvigwesterdahl/lib/cts/CtsFieldChain.java:62-75 | A nameless head is refused first ("cannot append a head without a name"), then appending to a leaf head ("cannot append to this chain"). Success holds exactly otherwise. It yields the fields plus the new head, a non-root chain that again satisfies the path invariant. |
| Chains.CtsFieldChain.ChainAll | src/main/java/se/ludvigwesterdahl/lib/cts/CtsFieldChain.java:85-92 | The call succeeds exactly when every head can be chained. It then yields one sibling chain per head, in order, each extending this chain. On failure the error is that of the first bad head. |
| Chains.CtsFieldChain.Equals | src/main/java/se/ludvigwesterdahl/lib/cts/CtsFieldChain.java:99-116 | Chains are equal exactly when their field sequences are. |
| Chains.CtsFieldChain.Head | src/main/java/se/ludvigwesterdahl/lib/cts/CtsFieldChain.java:33-40 | The last field. On a valid chain, the root's head is a nameless node and a longer chain's head is named. |
| Chains.CtsFieldChain.IsRoot | src/main/java/se/ludvigwesterdahl/lib/cts/CtsFieldChain.java:42-51 | A root chain holds its head alone, so `allFields()` is exactly `[head()]`. |
| Chains.CtsFieldChain.AllFields | src/main/java/se/ludvigwesterdahl/lib/cts/CtsFieldChain.java:53-60 | The full field list. On a valid chain it runs from the nameless root node to the head. |
| Chains.RootIsNamelessHead | src/main/java/se/ludvigwesterdahl/lib/cts/CtsFieldChain.java:26-31 | On valid chains, isRoot holds exactly when the head has no name, and the root head is a node. |
| Chains.NamesAfterRoot | src/main/java/se/ludvigwesterdahl/lib/cts/CtsFieldChain.java:62-65 | Every field after the root of a valid chain has a name. |
| Chains.ChainExamples | src/test/java/se/ludvigwesterdahl/lib/cts/CtsFieldChainTest.java:95-135 | The test's failing chains raise the right exceptions; root and leaf are told apart. |
| Generator.Embedded | src/main/java/se/ludvigwesterdahl/lib/cts/ClassToStringGenerator.java:61-67 | The destination is appended to the end of the node's list, which is created if absent. Every other key keeps its list. |
| Generator.Removed | src/main/java/se/ludvigwesterdahl/lib/cts/ClassToStringGenerator.java:89-92 | Only the node's entry is removed; null removes nothing. |
| Generator.EmbedOrder | src/main/java/se/ludvigwesterdahl/lib/cts/ClassToStringGenerator.java:61-67 | Two embeddings of one node keep both destinations, in call order. |
| Generator.RemoveUndoesEmbed | src/main/java/se/ludvigwesterdahl/lib/cts/ClassToStringGenerator.java:89-92 | Removing after embedding gives the same table as removing alone. |
| Generator.RemoveAbsent | src/main/java/se/ludvigwesterdahl/lib/cts/ClassToStringGenerator.java:89-92 | Removing an absent key, or null, changes nothing. |
| Generator.ClassToStringGenerator.From | src/main/java/se/ludvigwesterdahl/lib/cts/ClassToStringGenerator.java:20-24 | All three tables start empty, and the root type is ignored. |
| Generator.ClassToStringGenerator.AddNode | src/main/java/se/ludvigwesterdahl/lib/cts/ClassToStringGenerator.java:34-38 | Set insertion, null included; the other tables are unchanged. |
| Generator.ClassToStringGenerator.Rename | src/main/java/se/ludvigwesterdahl/lib/cts/ClassToStringGenerator.java:41-47 | A null `from` or `to` fails with nothing changed. Otherwise `from` maps to `to`, replacing any earlier mapping, and nothing else changes. |
| Generator.ClassToStringGenerator.EmbedInto | src/main/java/se/ludvigwesterdahl/lib/cts/ClassToStringGenerator.java:61-67 | A null node fails with nothing changed. Otherwise the embedding table becomes `Embedded(old, node, toNode)`. |
| Generator.ClassToStringGenerator.Embed | src/main/java/se/ludvigwesterdahl/lib/cts/ClassToStringGenerator.java:78-80 | Exactly the effect of embed(node, null). |
| Generator.ClassToStringGenerator.RemoveEmbeddings | src/main/java/se/ludvigwesterdahl/lib/cts/ClassToStringGenerator.java:89-92 | The embedding table becomes `Removed(old, node)`, and the other tables are unchanged. |
| Generator.ClassToStringGenerator.Generate | src/main/java/se/ludvigwesterdahl/lib/cts/ClassToStringGenerator.java:94-110 | Returns "" and changes nothing. |
| Blockers.BlockNode | src/main/java/se/ludvigwesterdahl/lib/cts/blockers/SimpleBlocker.java:34-38 | A null node is rejected. Otherwise the blocker blocks exactly the matching heads that are nodes. |
| Blockers.BlockLeaf | src/main/java/se/ludvigwesterdahl/lib/cts/blockers/SimpleBlocker.java:47-51 | A null leaf is rejected. Otherwise the blocker blocks exactly the matching heads that are leaves. |
| Blockers.Block | src/main/java/se/ludvigwesterdahl/lib/cts/blockers/SimpleBlocker.java:60-64 | A null target is rejected. Otherwise the blocker blocks exactly the matching heads, node or leaf. |
| Blockers.SimpleBlocker.Block | src/main/java/se/ludvigwesterdahl/lib/cts/blockers/SimpleBlocker.java:66-79 | A blocked head has the target's type, and the target's name when both are named. It is of the requested kind when a kind was requested. A head equal to the target is blocked when no kind is requested. |
| Blockers.SimpleBlockerDecision | src/main/java/se/ludvigwesterdahl/lib/cts/blockers/SimpleBlocker.java:66-79 | A head that does not match is never blocked. The parent node never changes the answer. With blockNodes null, every matching head is blocked. |
| Blockers.NamelessTarget | src/test/java/se/ludvigwesterdahl/lib/cts/blockers/SimpleBlockerTest.java:77-110 | A nameless target decides on the head's type (and kind) alone, whatever its name. |
| Blockers.SimpleBlockerExamples | src/test/java/se/ludvigwesterdahl/lib/cts/blockers/SimpleBlockerTest.java:20-75 | The test's table of leaf and node chains against the three factories. |
| Blockers.TransientBlocker.Block | src/main/java/se/ludvigwesterdahl/lib/cts/blockers/TransientBlocker.java:31-34 | Blocks exactly when ACC_TRANSIENT is set on the head. A head with no modifiers, such as the root, passes. |
| Blockers.StaticBlocker.Block | src/main/java/se/ludvigwesterdahl/lib/cts/blockers/StaticBlocker.java:30-33 | Blocks exactly when ACC_STATIC is set on the head. A head with no modifiers passes. |
| Blockers.LeafBlocker.Block | src/main/java/se/ludvigwesterdahl/lib/cts/blockers/LeafBlocker.java:31-34 | A blocked head is a named field below the root that is not a node, so the root never is. |
| Blockers.TransientInstance | src/main/java/se/ludvigwesterdahl/lib/cts/blockers/TransientBlocker.java:27-34 | The single instance blocks exactly the heads with ACC_TRANSIENT set. |
| Blockers.StaticInstance | src/main/java/se/ludvigwesterdahl/lib/cts/blockers/StaticBlocker.java:26-33 | The single instance blocks exactly the heads with ACC_STATIC set. |
| Blockers.LeafInstance | src/main/java/se/ludvigwesterdahl/lib/cts/blockers/LeafBlocker.java:27-34 | The single instance blocks exactly the heads that are not nodes. |
| Blockers.TransientBlockerReadsOneFlag | src/main/java/se/ludvigwesterdahl/lib/cts/blockers/TransientBlocker.java:31-34 | Chains whose heads agree on ACC_TRANSIENT get the same answer, whatever their other flags, kind or identifier. |
| Blockers.StaticBlockerReadsOneFlag | src/main/java/se/ludvigwesterdahl/lib/cts/blockers/StaticBlocker.java:30-33 | Chains whose heads agree on ACC_STATIC get the same answer. |
| Blockers.ModifierBlockerExamples | src/test/java/se/ludvigwesterdahl/lib/cts/blockers/TransientBlockerTest.java:60-73 | The transient and static test tables, for node and leaf heads. |
| Blockers.LeafBlockerNeverBlocksRoot | src/main/java/se/ludvigwesterdahl/lib/cts/blockers/LeafBlocker.java:31-34 | Exactly leaf heads are blocked, so the root never is. |
| BlockingPublicField.PublicFieldBlocker.Block | src/main/java/se/ludvigwesterdahl/samples/BlockingPublicField.java:62-67 | Blocks exactly when ACC_PUBLIC is set on the head. A head that is only private, or has no modifiers, passes. |
| BlockingPublicField.PublicFlagDecides | src/main/java/se/ludvigwesterdahl/samples/BlockingPublicField.java:62-67 | Only the head's ACC_PUBLIC flag decides; nothing else about the chain is read. |
| BlockingPublicField.PrivateNeverBlocked | src/main/java/se/ludvigwesterdahl/samples/BlockingPublicField.java:62-67 | A head whose modifiers are just ACC_PRIVATE is never blocked. |
| BlockingPublicField.CarFieldsBlocked | src/main/java/se/ludvigwesterdahl/samples/BlockingPublicField.java:15-45 | The Car and Wheel fields the sample marks as blocked are blocked, and the private ones are not. |
| LoopBlocking.LoopBlocker.constructor | src/main/java/se/ludvigwesterdahl/lib/cts/blockers/LoopBlocker.java:22-25 | Stores the blocking point and the count. The counter starts at 0 and counting is off. |
| LoopBlocking.LoopBlocker.Reset | src/main/java/se/ludvigwesterdahl/lib/cts/blockers/LoopBlocker.java:50-53 | counter = times, counting off. |
| LoopBlocking.LoopBlocker.Block | src/main/java/se/ludvigwesterdahl/lib/cts/blockers/LoopBlocker.java:55-62 | Only heads matching the blocking point are blocked, and they are blocked exactly once the counter is negative. |
| LoopBlocking.LoopBlocker.EnterNode | src/main/java/se/ludvigwesterdahl/lib/cts/blockers/LoopBlocker.java:65-79 | The new state is `Step(old, Enter(c))`. The root resets. A matching head turns counting on, and while counting each entered node decrements the counter. |
| LoopBlocking.LoopBlocker.ConsumeLeaf | src/main/java/se/ludvigwesterdahl/lib/cts/blockers/LoopBlocker.java:81-84 | Changes nothing. |
| LoopBlocking.LoopBlocker.LeaveNode | src/main/java/se/ludvigwesterdahl/lib/cts/blockers/LoopBlocker.java:86-91 | The new state is `Step(old, Leave(c))`: leaving a matching node resets, any other leave changes nothing. |
| LoopBlocking.Loop | src/main/java/se/ludvigwesterdahl/lib/cts/blockers/LoopBlocker.java:37-48 | Null is rejected, and a negative count gives "times cannot be negative". Zero gives a SimpleBlocker blocking every matching head. A positive count gives a fresh LoopBlocker. |
| LoopBlocking.RootEnterUnblocks | src/main/java/se/ludvigwesterdahl/lib/cts/blockers/LoopBlocker.java:50-70 | Entering the root resets to (times, off), after which no chain is blocked when times is at least 1. |
| LoopBlocking.CountingRun | src/main/java/se/ludvigwesterdahl/lib/cts/blockers/LoopBlocker.java:65-91 | Once counting, a trace that neither re-enters the root nor leaves a matching node lowers the counter by the number of nodes it enters, matching or not. |
| LoopBlocking.RepeatedEntries | src/test/java/se/ludvigwesterdahl/lib/cts/blockers/LoopBlockerTest.java:72-98 | The test's call sequence, run on the code: round i is blocked exactly when 2·i > times. |
| OldMaxDepth.MaxDepthBlocker.constructor | src/main/java/se/ludvigwesterdahl/lib/cts/blockers/MaxDepthBlocker.java:17-20 | Stores the blocking point and the level count. nextLevel starts at 0 and counting is off. |
| OldMaxDepth.MaxDepthBlocker.Reset | src/main/java/se/ludvigwesterdahl/lib/cts/blockers/MaxDepthBlocker.java:64-67 | nextLevel = continueLevels, counting off. |
| OldMaxDepth.MaxDepthBlocker.Block | src/main/java/se/ludvigwesterdahl/lib/cts/blockers/MaxDepthBlocker.java:55-62 | Leaf heads are never blocked. Node heads are blocked exactly once nextLevel is negative, whether or not they match. |
| OldMaxDepth.MaxDepthBlocker.EnterNode | src/main/java/se/ludvigwesterdahl/lib/cts/blockers/MaxDepthBlocker.java:69-85 | The new state is `Step(old, Enter(c))`. A nameless head resets. A match turns counting on, and while counting each entry decrements nextLevel. |
| OldMaxDepth.MaxDepthBlocker.ConsumeLeaf | src/main/java/se/ludvigwesterdahl/lib/cts/blockers/MaxDepthBlocker.java:87-90 | Changes nothing. |
| OldMaxDepth.MaxDepthBlocker.LeaveNode | src/main/java/se/ludvigwesterdahl/lib/cts/blockers/MaxDepthBlocker.java:92-99 | The new state is `Step(old, Leave(c))`: a matching node resets, and nothing else changes. |
| OldMaxDepth.NewInstance | src/main/java/se/ludvigwesterdahl/lib/cts/blockers/MaxDepthBlocker.java:35-42 | Null is rejected, and a negative level count gives "continueLevels cannot be negative". Otherwise the result is a fresh blocker. |
| OldMaxDepth.StopAfter | src/main/java/se/ludvigwesterdahl/lib/cts/blockers/MaxDepthBlocker.java:51-53 | Exactly newInstance(node, 0). |
| OldMaxDepth.ResetsAndLeaves | src/main/java/se/ludvigwesterdahl/lib/cts/blockers/MaxDepthBlocker.java:69-99 | Entering the root resets. A leave either changes nothing or resets; it never counts back. |
| OldMaxDepth.CountingRun | src/main/java/se/ludvigwesterdahl/lib/cts/blockers/MaxDepthBlocker.java:69-99 | Once counting, an uninterrupted trace lowers nextLevel by the number of nodes entered, nested leaves notwithstanding. |
| Blocker.MaxDepthBlocker.constructor | src/main/java/se/ludvigwesterdahl/lib/cts/blocker/MaxDepthBlocker.java:15-18 | Stores the blocking point and the level count. nextLevel starts at 0 and counting is off. |
| Blocker.MaxDepthBlocker.Reset | src/main/java/se/ludvigwesterdahl/lib/cts/blocker/MaxDepthBlocker.java:51-54 | nextLevel = continueLevels, counting off. |
| Blocker.MaxDepthBlocker.Block | src/main/java/se/ludvigwesterdahl/lib/cts/blocker/MaxDepthBlocker.java:42-49 | Leaf heads are never blocked. Node heads are blocked exactly once nextLevel is negative. |
| Blocker.MaxDepthBlocker.EnterNode | src/main/java/se/ludvigwesterdahl/lib/cts/blocker/MaxDepthBlocker.java:56-70 | The new state is `Step(old, Enter(c))`. The root resets. A match turns counting on, and while counting each entry decrements nextLevel. |
| Blocker.MaxDepthBlocker.ConsumeLeaf | src/main/java/se/ludvigwesterdahl/lib/cts/blocker/AbstractBlocker.java:16-19 | The inherited callback changes nothing. |
| Blocker.MaxDepthBlocker.LeaveNode | src/main/java/se/ludvigwesterdahl/lib/cts/blocker/MaxDepthBlocker.java:72-81 | The new state is `Step(old, Leave(c))`. While counting a leave increments nextLevel, and it resets when that returns to continueLevels on a matching node. |
| Blocker.NewInstance | src/main/java/se/ludvigwesterdahl/lib/cts/blocker/MaxDepthBlocker.java:33-40 | Null is rejected, and a negative level count gives "continueLevels cannot be negative". Otherwise the result is a fresh blocker. |
| Blocker.IdleTree | src/main/java/se/ludvigwesterdahl/lib/cts/blocker/MaxDepthBlocker.java:56-81 | From the reset state, a complete subtree below the root leaves the blocker reset. When the subtree enters the blocking point, its leave resets. |
| Blocker.IdleForest | src/main/java/se/ludvigwesterdahl/lib/cts/blocker/MaxDepthBlocker.java:56-81 | The same for a sequence of sibling subtrees. |
| Blocker.CountingTree | src/main/java/se/ludvigwesterdahl/lib/cts/blocker/MaxDepthBlocker.java:56-81 | While counting, a complete subtree leaves nextLevel where it was: each enter is matched by a leave. |
| Blocker.CountingForest | src/main/java/se/ludvigwesterdahl/lib/cts/blocker/MaxDepthBlocker.java:56-81 | The same for a sequence of sibling subtrees. |
| Blocker.IdleDescent | src/main/java/se/ludvigwesterdahl/lib/cts/blocker/MaxDepthBlocker.java:56-70 | Descending through non-matching nodes, with complete siblings on the way, keeps the blocker reset. |
| Blocker.CountingDescent | src/main/java/se/ludvigwesterdahl/lib/cts/blocker/MaxDepthBlocker.java:56-81 | While counting, each level descended lowers nextLevel by exactly one, whatever complete siblings lie on the way. |
| Blocker.ReachBlockingPoint | src/main/java/se/ludvigwesterdahl/lib/cts/blocker/MaxDepthBlocker.java:56-70 | Entering the root and descending to the blocking point leaves nextLevel = continueLevels − 1, with counting on. |
| Blocker.DepthLimit | src/main/java/se/ludvigwesterdahl/lib/cts/blocker/MaxDepthBlocker.java:21-49 | The depth limit: a node chain checked d levels below the blocking point (d ≥ 1) is blocked exactly when d > continueLevels. |
| Blocker.RepeatedDescent | src/test/java/se/ludvigwesterdahl/lib/cts/blockers/MaxDepthBlockerTest.java:49-75 | The test's call sequence: continueLevels checks pass and the next one is blocked. |
| Blocker.LeafInstance | src/main/java/se/ludvigwesterdahl/lib/cts/blocker/LeafBlocker.java:23-30 | The single instance decides as the other package's LeafBlocker does. |
| Blocker.LeafBlocker.Block | src/main/java/se/ludvigwesterdahl/lib/cts/blocker/LeafBlocker.java:27-30 | Decides as the `blockers` LeafBlocker does, and never blocks the root. |
| Blocker.LeafBlockersAgree | src/main/java/se/ludvigwesterdahl/lib/cts/blocker/LeafBlocker.java:27-30 | The two LeafBlockers agree on every chain, and neither blocks the root. |
| Traces.TraversalShape | src/main/java/se/ludvigwesterdahl/lib/cts/Observer.java:7-30 | A traversal enters the root first and leaves it last, carries no other root chain, and is balanced. Every proper non-empty prefix has at least one node open. |
| Traces.EventsBalanced | src/main/java/se/ludvigwesterdahl/lib/cts/Observer.java:23-30 | Every subtree's trace enters as many nodes as it leaves. |
| Traces.PrefixBalance | src/main/java/se/ludvigwesterdahl/lib/cts/Observer.java:23-30 | No prefix leaves more nodes than it entered, and a node stays open inside its own trace. |
| Traces.SimpleChainsBuilt | src/test/java/se/ludvigwesterdahl/lib/fixture/ctstestcases/SimpleStructureWithCode.java:48-53 | The fixture's chains are the ones newRootInstance and chain build. |
| Traces.SimpleStructureTrace | src/test/java/se/ludvigwesterdahl/lib/fixture/ctstestcases/SimpleStructureWithCode.java:55-63 | The fixture's expected notifications are the trace of its tree. |
| Strings.LastIndexOf | src/main/java/se/ludvigwesterdahl/lib/cts/strategy/FlatGenerationStrategy.java:77 | StringBuilder.lastIndexOf: −1 or an occurrence, with no occurrence after it. |
| Strings.LastIndexOfAppended | src/main/java/se/ludvigwesterdahl/lib/cts/strategy/FlatGenerationStrategy.java:77-78 | The last separator in `s + sep` is at position \|s\|. |
| Strings.TerminatedIsJoinPlusSep | src/main/java/se/ludvigwesterdahl/lib/cts/strategy/FlatGenerationStrategy.java:66-80 | Appending each path followed by the separator, then dropping the last separator, is joining the paths. |
| FlatGeneration.FlatGenerationStrategy.constructor | src/main/java/se/ludvigwesterdahl/lib/cts/strategy/FlatGenerationStrategy.java:11-39 | Takes the separator and marker; the buffer is empty and the result is "". |
| FlatGeneration.LeafString | src/main/java/se/ludvigwesterdahl/lib/cts/strategy/FlatGenerationStrategy.java:58-64 | The root's leaf string is empty, and one level down it is the head's name. |
| FlatGeneration.LeafStringExtends | src/main/java/se/ludvigwesterdahl/lib/cts/strategy/FlatGenerationStrategy.java:58-64 | Chaining a named field below a non-root chain extends its leaf string by the level marker and the new field's name. |
| FlatGeneration.FlatGenerationStrategy.EnterNode | src/main/java/se/ludvigwesterdahl/lib/cts/strategy/FlatGenerationStrategy.java:49-56 | The new state is `Step(old, Enter(c))`: with a result stored, a nameless head clears the buffer and unsets the result; otherwise nothing changes. |
| FlatGeneration.FlatGenerationStrategy.ConsumeLeaf | src/main/java/se/ludvigwesterdahl/lib/cts/strategy/FlatGenerationStrategy.java:58-71 | Appends the names after the root, joined by the level marker, and then the separator. It never fails on a valid chain. |
| FlatGeneration.FlatGenerationStrategy.LeaveNode | src/main/java/se/ludvigwesterdahl/lib/cts/strategy/FlatGenerationStrategy.java:73-81 | Leaving a nameless node with no result cuts the buffer at its last separator and stores it as the result. With no separator in the buffer, `delete` fails and nothing changes. Any other leave changes nothing. |
| FlatGeneration.FlatGenerationStrategy.Generate | src/main/java/se/ludvigwesterdahl/lib/cts/strategy/FlatGenerationStrategy.java:83-90 | "" while no result is stored, else the result. |
| FlatGeneration.FlatGenerationStrategy.Traverse | src/main/java/se/ludvigwesterdahl/lib/cts/Observer.java:7-30 | Calling the callbacks in trace order ends in `Run(old, trace)`, or fails with its first exception. |
| FlatGeneration.Builder.constructor | src/main/java/se/ludvigwesterdahl/lib/cts/strategy/FlatGenerationStrategy.java:16-19 | The defaults are "," and "/". |
| FlatGeneration.Builder.WithPathSeparator | src/main/java/se/ludvigwesterdahl/lib/cts/strategy/FlatGenerationStrategy.java:21-24 | Null fails with nothing changed; otherwise only the separator is set. |
| FlatGeneration.Builder.WithLevelMarker | src/main/java/se/ludvigwesterdahl/lib/cts/strategy/FlatGenerationStrategy.java:26-29 | Null fails with nothing changed; otherwise only the marker is set. |
| FlatGeneration.Builder.Build | src/main/java/se/ludvigwesterdahl/lib/cts/strategy/FlatGenerationStrategy.java:31-39 | A fresh strategy with the builder's separator and marker. |
| FlatGeneration.StepBelowRoot | src/main/java/se/ludvigwesterdahl/lib/cts/strategy/FlatGenerationStrategy.java:49-81 | During a traversal, a callback on a non-root chain never fails, and only consumeLeaf changes the buffer. |
| FlatGeneration.BelowRootRun | src/main/java/se/ludvigwesterdahl/lib/cts/strategy/FlatGenerationStrategy.java:66-71 | Below the root, the buffer gains each consumed leaf's path and a separator, in order. |
| FlatGeneration.LeaveRoot | src/main/java/se/ludvigwesterdahl/lib/cts/strategy/FlatGenerationStrategy.java:73-81 | Leaving the root removes exactly the final separator, storing the joined paths. With no leaf it fails unless the separator is empty. |
| FlatGeneration.GenerateTraversal | src/main/java/se/ludvigwesterdahl/lib/cts/strategy/FlatGenerationStrategy.java:49-90 | A whole traversal from a fresh or finished strategy stores the leaf paths joined by the separator, in consumption order. With no leaf it fails, unless the separator is empty. |
| FlatGeneration.SimpleStructureLeaves | src/test/java/se/ludvigwesterdahl/lib/fixture/ctstestcases/SimpleStructureWithCode.java:48-63 | The fixture consumes field1, inner.field1Inner and inner.field2Inner, in that order. |
| FlatGeneration.SimpleStructureLeafStrings | src/main/java/se/ludvigwesterdahl/lib/cts/strategy/FlatGenerationStrategy.java:58-64 | Their leaf strings are "field1", "inner/field1Inner" and "inner/field2Inner". |
| FlatGeneration.SimpleStructurePaths | src/test/java/se/ludvigwesterdahl/lib/fixture/ctstestcases/SimpleStructureWithCode.java:64-66 | Joined by "," they are the expected text. |
| FlatGeneration.SimpleStructureGenerates | src/test/java/se/ludvigwesterdahl/lib/fixture/ctstestcases/SimpleStructureWithCode.java:44-66 | The default strategy run over the fixture trace generates "field1,inner/field1Inner,inner/field2Inner". |
| JsonTemplate.IndentIsSpaces | src/main/java/se/ludvigwesterdahl/samples/JsonTemplate.java:36-38 | indent(l, s) is 2·l spaces followed by s. |
| JsonTemplate.StripLastChangesLastRow | src/main/java/se/ludvigwesterdahl/samples/JsonTemplate.java:74-79 | Only the last row changes, and only by losing one trailing comma. |
| JsonTemplate.JsonGenerationStrategy.constructor | src/main/java/se/ludvigwesterdahl/samples/JsonTemplate.java:30-34 | rows and stack start null. |
| JsonTemplate.JsonGenerationStrategy.EnterNode | src/main/java/se/ludvigwesterdahl/samples/JsonTemplate.java:40-60 | Succeeds or fails as `Step(old, Enter(c))` says, and on success the new state is its result. The root resets to `["{"]`, `["}"]` and level 1. Another node appends `"name": {` at the level, pushes the indented `}` and increments the level. |
| JsonTemplate.JsonGenerationStrategy.ConsumeLeaf | src/main/java/se/ludvigwesterdahl/samples/JsonTemplate.java:62-69 | As `Step(old, Consume(c))`: one row `"name": "Type",` at the current level, with the stack and level unchanged. |
| JsonTemplate.JsonGenerationStrategy.LeaveNode | src/main/java/se/ludvigwesterdahl/samples/JsonTemplate.java:71-82 | As `Step(old, Leave(c))`. With a non-empty stack it strips one trailing comma from the last row, then appends the popped row. With an empty stack nothing changes. |
| JsonTemplate.JsonGenerationStrategy.Generate | src/main/java/se/ludvigwesterdahl/samples/JsonTemplate.java:84-87 | The rows joined by newlines; null rows fail. |
| JsonTemplate.JsonGenerationStrategy.Traverse | src/main/java/se/ludvigwesterdahl/samples/JsonTemplate.java:40-82 | Calling the callbacks in trace order ends in `Run(old, trace)`, or fails with its first exception. |
| JsonTemplate.StepLevel | src/main/java/se/ludvigwesterdahl/samples/JsonTemplate.java:40-82 | Outside a root enter, only entering a node changes the level (+1); leaving never lowers it. |
| JsonTemplate.RunTree | src/main/java/se/ludvigwesterdahl/samples/JsonTemplate.java:40-82 | A subtree below the root appends its rendering and leaves the stack as it found it. The level rises by the number of nodes entered. |
| JsonTemplate.RunRoot | src/main/java/se/ludvigwesterdahl/samples/JsonTemplate.java:40-82 | A whole traversal gives `{`, the children's rendering with the last trailing comma removed, and `}`. The stack is then empty. |
| JsonTemplate.StepWeight | src/main/java/se/ludvigwesterdahl/samples/JsonTemplate.java:40-82 | After the root is entered, every callback succeeds and pushes or pops exactly as it enters or leaves a node. |
| JsonTemplate.StackHeight | src/main/java/se/ludvigwesterdahl/samples/JsonTemplate.java:40-82 | At every point of a traversal the stack holds one row per node entered and not yet left, the root included. |
| JsonTemplate.MovieRendered | src/main/java/se/ludvigwesterdahl/samples/JsonTemplate.java:16-28 | The Movie traversal renders to the seven rows of the nested object. |
| JsonTemplate.MovieGenerates | src/main/java/se/ludvigwesterdahl/samples/JsonTemplate.java:106-115 | generate() after the Movie traversal is the text in the sample's comment. |
| Pipe.Builder.constructor | src/main/java/se/ludvigwesterdahl/lib/cts/pipe/PipeMessage.java:21-23 | Stores the message type; type and name start null. |
| Pipe.Builder.WithType | src/main/java/se/ludvigwesterdahl/lib/cts/pipe/PipeMessage.java:25-28 | Null fails with nothing changed; otherwise the type is replaced and the name kept. |
| Pipe.Builder.WithName | src/main/java/se/ludvigwesterdahl/lib/cts/pipe/PipeMessage.java:30-33 | Null fails with nothing changed; otherwise the name is replaced and the type kept. |
| Pipe.Builder.Build | src/main/java/se/ludvigwesterdahl/lib/cts/pipe/PipeMessage.java:35-44 | The message copies the three values unchanged, nulls included. |
| Pipe.NewBuilder | src/main/java/se/ludvigwesterdahl/lib/cts/pipe/PipeMessage.java:21-23 | A null message type is rejected; otherwise the result is a fresh empty builder. |
| Pipe.ToBuilder | src/main/java/se/ludvigwesterdahl/lib/cts/pipe/PipeMessage.java:58-62 | Fails with NullPointerException exactly when the type or name is null. Otherwise it gives a builder preset with the message's values. |
| Pipe.RoundTrip | src/main/java/se/ludvigwesterdahl/lib/cts/pipe/PipeMessage.java:58-62 | `toBuilder().build()` succeeds exactly when type and name are set, and then returns an equal message. |
| Pipe.BuildWith | src/main/java/se/ludvigwesterdahl/lib/cts/pipe/PipeMessage.java:25-37 | The fluent sequence: withType calls, then withName, then build(). It fails with NullPointerException exactly when the name is null, and then nothing is built. Otherwise the last type wins, a type never set stays null, and the name is the one given. |

## Left out

- **The traversal engine.** `iterate`, observers and blockers registered on the generator, renaming and embedding expansion, and the loop guard are not part of the shown ClassToStringGenerator.java. Traversals are given instead as well-formed trees of chains (module `Traces`).
- **Reflection and annotations.** `Class<?>` is its simple name as a string, and `getSimpleName` in the JSON sample is that string. The `@CtsNode`, `@CtsLeaf` and `@CtsName` annotations are not modelled.
- **Interfaces.** Observer.java, the two Blocker.java files, GenerationStrategy.java, PipeActor.java and AbstractBlocker.java have no logic of their own. Their empty callbacks are modelled as the members that change nothing.
- **Other files.** FlatStrategy.java, the sample `main` methods, SkipIterationResult and Main.java only print or store unread fields.
- **Cached hash codes.** The hash short-cuts in each `equals` are left out: every `equals` is structural. `equals(Object)` on an object of another class is not modelled (the argument is an `Option` of the same type).
- **Integer range.** Java `int` counters (LoopBlocker's counter, both MaxDepthBlockers' nextLevel, the JSON level) are unbounded here. 32-bit wrap-around needs about 2^31 callbacks and is not modelled.
- **Singleton identity.** Each `getInstance` returns the single value of a one-constructor datatype, so "the same instance" is value equality.
- **Null elements.** `chainAll` takes a sequence of fields with no null elements, and `Chain` takes a non-null head.
- **Old MaxDepthBlocker's missing calls.** The old MaxDepthBlocker calls `leaf().isPresent()` and `lastNode()`, which the shown CtsFieldChain lacks. They are read as "the head is not a node" and "the head".
- **Old MaxDepthBlocker and its test.** MaxDepthBlockerTest is proved against the newer `blocker` class only, the one its expectations fit.
- **Test-only API.** The `withNodes`/`withLeaf` options used by FlatGenerationStrategyTest do not exist in the shown strategy. The FixEmbedAnnotationCycle fixtures are unfinished and are left out.
- **LoopBlocker's documentation.** The doc says the blocking point may be entered `times` times, and LoopBlockerTest expects that. The code decrements the counter on every entered node once counting, so in the test's sequence round i is blocked exactly when 2·i > times. The model follows the code; `RepeatedEntries` states what the code does.
- **JSON sample, as written.**
  - The closing row of a nested object never gets a comma, so a nested object followed by a sibling renders invalid JSON.
  - `leaveNode` never lowers the level, so rows after a nested object are indented one level too deep.
  - Both behaviours are modelled as written. `RunTree` and `RenderFrom` carry the level forward by the number of nodes entered. The Movie sample, whose nested object is last, is unaffected.
- **Flat strategy with no leaf.** Leaving the root with no separator in the buffer makes `StringBuilder.delete` throw. This is modelled as an error result, the IndexOutOfBounds case of `LeaveNode` and `GenerateTraversal`.
- **JsonTemplate.NameOf.** The empty-name fallback stands for `orElseThrow` and is never reached below the root; a nameless head on a non-root enter or consume is the NoSuchElement error of `Step`.
- Generator.ClassToStringGenerator.AddNode / RemoveEmbeddings: the Javadoc of `addNode` (ClassToStringGenerator.java:32) and of `removeEmbeddings` (ClassToStringGenerator.java:87) promises a NullPointerException for a null node. The code never throws it: `nodes.add(null)` stores null in the HashSet and `embeddings.remove(null)` removes nothing. The model follows the code and accepts null in both.
