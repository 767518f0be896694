# Armor-set search

The repository finds armor sets for a game: given skills with required points, it combines one armor per body part with
jewels in the armors' slots. This project models the search engine (`cpp/core`, `cpp/utils`), the semantics its results are
judged by (`cpp/dataset/dataset.cc`, `cpp/testing/verifier.h`), and the text format in which results travel to the C# wrapper.

The engine is a chain of stages, and each has a simple meaning that the model states and its code is proved to keep.

* **Packing** (`Packing`). A jewel multiset fits a set of slots if and only if three inequalities hold. Everything below rests
  on that: the memoised recurrence, the residual, the naive search and the greedy assigner.
* **Signatures** (`Signature`, `SignatureBytes`, `Keys`, `SetTotals`). Sixteen signed bytes pack slots, multiplier and points;
  byte addition wraps. The proofs show which true totals the bytes stand for.
* **Foundation** (`NodePool`, `FoundationSteps`, `MergeSteps`, `Foundation`). An append-only OR/AND forest; a tree stands for the
  multiset of armor tuples that `CountOr` counts. A tuple lists the body piece first and the head last.
* **Jewel queries** (`SlotRecurrence`, `SlotClient`, `JewelSearch`, `JewelPlans`, `Residuals`, `ClientVector`). The set of all sums
  of jewels that fit, with and without slots in a body piece that counts several times.
* **Splitting** (`Scoring`, `TinyMap`, `AndGroups`, `SplitResults`, `SplitSteps`, `SkillSplitter`). Refining a tree by one more
  skill with branch and bound.
* **Iterators** (`Iterators`, `TreeLists`, `JewelPruner`, `SplitPruning`, `SplitStages`, `SkillSplitPruner`, `Enumeration`,
  `UnpackSteps`, `Unpacker`, `RawSets`, `Drains`).
* **Which armors come through** (`Reaching`, `StageSteps`, `JewelLists`, `Completeness`, `KeyPlans`, `InJewels`, `LostSets`, `Refusals`,
  `LaterLosses`). `Reached` tells from the armors
  alone with which jewel keys they come through the first stages, and `IsStage` that the trees of a stage list exactly that.
* **Finishing** (`JewelPicks`, `JewelSolver`, `EmittedKeys`, `JewelAssigner`, `Placements`, `FinalSteps`, `Finalizer`). A summed key
  is taken apart into jewels by backtracking, and these are placed largest first into the tightest part.
* **The search** (`Candidates`, `PointBounds`, `RootCounts`, `Solutions`, `CleanSolutions`, `Search`, `SmallItems`,
  `MissedClean`).
* **Printer and reader** (`Numerals`, `Tokens`, `DexFormatter`, `ResultParser`, `RoundTrip`).

What the engine takes for granted is stated in three predicates. `Data.Valid` and `Query.Valid`: slots 0 to 3, torso-up only on
the four lower parts and without slots, distinct effects, 1 to 13 effects with required points 1 to 127, none of them the
torso-up skill. `NoOverflow`: no point total of an allowed armor set with jewels that fit leaves a signed byte.
`SplitKeysFit`: the points by which trees are split lie in -25 to 38. `SmallItemsSearchable` gives bounds on single items that
imply the last two.

Where the code falls short of what one might expect of it:

* `GetResidual` is not exact in general; `ResidualExactIffLossless` says when it is, and `ResidualLossExample` shows a loss.
* For two or more effects the search can miss armors that have a solution. The test of a stage refuses keys whose points in a
  later effect are negative, although later jewels could make these up (`SpoiledLost`), and the residual may refuse later jewels
  that would fit (`LossyLost`). With three or more effects it also refuses keys with negative points in an effect that the
  trees' keys do not cover yet, although the armors may have more than enough there (`TakersRefused`, `SparedLost`); and the
  prefilter, which tries out a later effect by itself, refuses armors when the jewels for it take points from another effect
  still to come (`BetweenRefused`, `TriedLost`). `Reached` says exactly which armors come through, and
  `AliveInJewels` says it in jewels. None with a solution is missed if no jewel that helps with one effect takes points from a
  later one, nor from one that trees are split by, no admitted armor takes points from the second effect (`NoSpoilers`), and
  the slots left by jewels for the effects before the last are always `Lossless` (`AlwaysLossless`). One effect alone always
  meets both conditions.
* With the negative-skill check, armors are rejected although they have a solution without negative skills (`CleanMissed`): each
  key gets one choice of jewels and one placement, and jewels that help with no asked effect are never tried. This does not
  happen when no jewel changes the points of a skill that can turn negative (`RejectedNotClean`).
* An amulet's third and later effects do not survive the trip through the C# reader (`AmuletWhole`).
* `max_results` of zero still returns one set, because the loop tests after adding; a negative number is no limit, because it
  is compared as an unsigned one (`Search`).

## Model

| member | source | states |
|---|---|---|
| Searches.ArmorUp.Search | cpp/core/armor_up.h:113-128 | For any number of effects. Every returned set passes the repository's own verifier and is a solution: admitted armors, one per part, a weapon with the asked slots, admitted jewels that overfill no part. The list of armors that reach the finalizer has exactly those that come through all stages with enough defense, each once; under `NoSpoilers` and `AlwaysLossless` these are exactly the armors that have a solution. The results are a subsequence of that list: at most `max_results` of them if that is positive, at most one if it is zero, any number if it is negative; the search stops early only when it has that many, and armors before that point are missing only if every key with which they come through was solved and placed into a set with an active negative skill. When no jewel changes the points of a skill that can turn negative (`NoneTurns`), the armors before that point that are results are exactly those with a solution free of negative skills. Without the negative-skill check the results are the first entries |
| Searches.FoundIsSolvable | cpp/core/armor_up.h:78-111 | When no jewel or armor spoils an effect and the residual always keeps every option open, armors come through with enough defense if and only if they have a solution |
| Searches.FoundQualifies | cpp/core/armor_up.h:78-111 | Without any such condition, armors that come through have a solution |
| Completeness.CompletableIffAlive | cpp/core/pruners.h:36-206 | Under the same conditions, for any number of effects, an allowed tuple comes through all stages if and only if some summed key that fits completes it |
| Completeness.ComesThrough | cpp/core/pruners.h:36-206 | Stage by stage, the jewels of a solution that help with one of the first `s` effects make a key with which the tuple comes through stage `s` |
| Completeness.StaysHopeful | cpp/core/pruners.h:126-153 | While a tuple comes through with such a key, the prefilter of every splitting stage finds all later effects possible |
| Completeness.AliveCompletable | cpp/core/pruners.h:36-206 | Every key with which a tuple comes through all stages is that of jewels that fit and reach all required points |
| Completeness.EasyLossless | cpp/utils/jewels_query.h:78-113 | The residual loses nothing when no 1-jewel helps with an effect before the last, or no admitted armor has three slots |
| InJewels.AliveInJewels | cpp/core/pruners.h:36-206 | For any number of effects, told in jewels and true totals only: armors come through a stage if and only if there are jewels with which they come through the stage before and jewels for the next effect that fit what the residual of these leaves, such that the effects so far are reached, no other is negative as far as the stage can see it, and, where trees are split, each later effect could be reached by jewels for it alone with some armors that are alike |
| InJewels.ComesReached | cpp/core/pruners.h:36-206 | Such jewels make a key with which the armors come through |
| InJewels.ReachedComes | cpp/core/pruners.h:36-206 | Every key with which armors come through is that of such jewels |
| InJewels.KeyAlike | cpp/core/armor_up.h:222-252 | Two allowed sets have equal tree keys exactly when their slots, multiplier and true points in the covered effects are equal |
| LostSets.SpoiledLost | cpp/core/pruners.h:46-72 | A concrete query for two effects whose armors have a solution, within the standing bounds, and yet no key comes through the first stage: their points in the second effect are negative, which a jewel for it would make up |
| LostSets.LossyLost | cpp/core/pruners.h:56-69 | A concrete query without any negative points whose armors have a solution, and yet no key comes through the second stage: in slots (0,1,1) the residual after one 1-jewel refuses two 2-jewels |
| LostSets.AlreadyRefused | cpp/core/pruners.h:46-72 | Whatever the data: without jewels for the first effect, negative points in the second keep a tuple out |
| Refusals.LaterNotNegative | cpp/core/pruners.h:46-72 | In effects that the keys of the trees do not cover yet, no key with negative points passes a stage, whatever the armors have there |
| Refusals.TakersRefused | cpp/core/pruners.h:46-53 | Whatever the data: armors that need jewels for the first effect do not come through the first stage if these all take points from some effect after the second |
| Refusals.BetweenRefused | cpp/core/pruners.h:126-153 | Whatever the data: when some effect needs jewels, and all jewels take points from another effect that is still to be split by, the prefilter refuses every tuple |
| LaterLosses.SparedLost | cpp/core/pruners.h:46-53 | A concrete query for three effects with a solution that the first stage refuses: the jewel for the first effect takes a point of the third, of which the body piece has enough |
| LaterLosses.TriedLost | cpp/core/pruners.h:126-153 | A concrete query for four effects with a solution that the prefilter refuses: the jewel for the fourth effect takes a point of the third, of which the body piece has enough |
| CleanSolutions.NegativeIffArmors | cpp/testing/verifier.h:81-92 | When no jewel changes the points of a skill that can turn negative, a set that reaches the required points has an active negative skill if and only if its armors alone make one active |
| Searches.RejectedNotClean | cpp/core/pruners.h:425-439 | Under that condition no rejected armors have a solution free of negative skills |
| MissedClean.CleanMissed | cpp/core/pruners.h:425-439 | Without it: a concrete query whose armors come through and have a solution free of negative skills, with a jewel that helps no asked effect; whatever jewels are solved and placed for their keys, a negative skill is active |
| Searches.ArmorUp.SearchCore | cpp/core/armor_up.h:78-111 | For any number of effects, exactly the tuples that come through every stage and have the defense reach the finalizer, each once, each with exactly the keys with which it comes through |
| Searches.ArmorUp.PrepareTrees | cpp/core/armor_up.h:87-107 | After all tree stages two tuples share a tree with a jewel key exactly if both come through with it and have equal signatures; no tuple is listed twice |
| Searches.ArmorUp.PrepareOutput | cpp/core/armor_up.h:108-110 | The unpacked sets with enough defense are those of the trees, in order, and each comes with keys that complete it |
| Searches.ArmorUp.TakeResults | cpp/core/armor_up.h:121-126 | The results are of unpacked sets at increasing positions, every other set passed over is rejected with all its keys, and there are at most as many as asked for |
| Searches.ArmorUp.ApplyJewelFilters | cpp/core/armor_up.h:261-268 | After the chained jewel pruners two tuples share a tree with a jewel key exactly if the key is in the slot client's answers for one, or for two effects extends such a key by jewels for the residual, the tests of the stages pass, and their signatures are equal; no tuple is listed twice |
| Searches.ArmorUp.ApplySplitters | cpp/core/armor_up.h:270-277 | The same after each chained splitter, for any number of further effects |
| Drains.DrainJewels | cpp/core/pruners.h:39-75 | Over a whole run a jewel pruner passes on exactly the trees with a candidate, each with all its candidates, as often as before |
| Drains.DrainSplits | cpp/core/pruners.h:155-206 | Over a whole run a skill split pruner passes on exactly what its stage keeps, with its jewel keys, as often as before |
| Searches.SearchExact | cpp/core/armor_up.h:78-111 | What is left before the finalizer, counted tuple by tuple: those that come through and have the defense, once |
| StageSteps.FirstPrunes | cpp/core/pruners.h:46-53 | A tree of the foundation has the key among its candidates exactly if its tuples come through the first stage with it |
| StageSteps.FilterPrunes | cpp/core/pruners.h:54-70 | The same for the second filter, told from the tuples alone |
| StageSteps.SplitsIff | cpp/core/pruners.h:126-203 | Of a tree, a split keeps a tuple with a key exactly if the key extends one of the tuple's keys by jewels for the effect, passes the byte test with the tuple's own points, and every later effect could be met with the points of some tuple of equal signature |
| StageSteps.SplitTogether | cpp/core/pruners.h:155-206 | Two tuples stay in one tree exactly if both are kept and their signatures, with the points of the new effect, are equal |
| Solutions.QualifiesIff | cpp/testing/verifier.h:220-235 | A tuple has a placement of allowed jewels that reaches all required points if and only if its armors are allowed, it has the defense, and some summed key that fits completes it |
| Solutions.PlacementExists | cpp/utils/jewels_query.h:432-477 | Jewels that meet the packing inequalities can be placed without overfilling a part |
| Solutions.SolutionCompletes | cpp/testing/verifier.h:220-235 | From any solution, leaving out the jewels that help no effect, a completing key results |
| Solutions.SolutionIff | cpp/testing/verifier.h:220-235 | A solution, from the fields of armors, jewels and query: part by part the kinds, the rare limits and lists where they apply, the weapon slots, the jewel list and sizes, the slots taken, the defense and the points |
| Solutions.UsableIff | cpp/utils/jewels_query.h:312-335 | The jewels that the engine uses: not on the list, one to three slots, and positive points in one of the asked effects |
| SmallItems.SmallItemsSearchable | cpp/core/armor_up.h:78-111 | Bounds on single armors and jewels under which no point total leaves a byte and no split key leaves the index map |
| Packing.StuffLargestFirst | lisp/engine/jewels.lisp:188-204 | Placing a largest jewel in the smallest slot that takes it loses no way to place the others |
| Packing.StuffAllIffFits | lisp/engine/jewels.lisp:188-212 | One-at-a-time stuffing goes through if and only if n3 <= k, n2 + n3 <= j + k and n1 + 2 n2 + 3 n3 <= i + 2j + 3k |
| Packing.ResidualIsStuffAll | cpp/utils/jewels_query.h:72-113 | The closed form of GetResidual is the result of stuffing one jewel at a time, largest first; it leaves a negative 3-slot count when the jewels do not fit |
| Packing.ResidualSound | cpp/utils/jewels_query.h:72-117 | Jewels that fit, and jewels that fit what they leave, fit together |
| Packing.ResidualExactIffLossless | cpp/utils/jewels_query.h:78-113 | The residual admits everything that fits together with the stuffed jewels if and only if `Lossless` holds, a test on the slot counts |
| Packing.ResidualLossExample | cpp/utils/jewels_query.h:78-113 | A concrete loss: one 1-jewel in slots (0,1,1) leaves (1,0,1), which refuses two 2-jewels that fit |
| SlotClients.SlotClient.GetResidual | cpp/utils/jewels_query.h:72-117 | The statements of the function compute the closed form, and the difference of the body slots |
| Signatures.PackPlus | cpp/utils/signature.h:195-201 | Byte addition adds 1-, 2- and 3-slots, body slots, multiplier and points field by field |
| Signatures.UnpackFields | cpp/utils/signature.h:142-162 | Inside the bounds of seven parts every field reads back: slots, body slots, their sum, multiplier, points |
| Signatures.PackRefactored | cpp/utils/signature.h:118-140 | The bit operations of BodyRefactor move the slots of one piece into the body bits and multiply its points, with no carry |
| Signatures.AddAssociates | cpp/utils/signature.h:188-201 | Wrapping byte addition is associative, so sums do not depend on the order of jewels |
| SignatureBytes.SignatureBuffer.FromArmor | cpp/utils/signature.h:39-68 | The loops build the packed signature of an armor: for a single effect with id zero just a one in byte 2; otherwise the slots, a one for a body piece, and from byte 3 on the points listed for each effect, wrapped to a byte |
| SignatureBytes.SignatureBuffer.FromJewel | cpp/utils/signature.h:70-108 | The loops build the packed signature of a jewel byte by byte, or zero if it has positive points in none of the skills |
| SignatureBytes.SignatureBuffer.BodyRefactor | cpp/utils/signature.h:118-140 | The byte updates in place compute the value operation |
| SignatureBytes.SignatureBuffer.AddAssign | cpp/utils/signature.h:188-192 | operator+= adds byte by byte, with wrap-around |
| SignatureBytes.SignatureBuffer.TimesAssign | cpp/utils/signature.h:182-186 | operator*= multiplies the point bytes only |
| SignatureBytes.SignatureBuffer.OrOf | cpp/utils/signature.h:203-209 | operator| adds the points and forgets the slots |
| SignatureBytes.SignatureBuffer.Invert | cpp/utils/signature.h:246-255 | The inverse key clears two slot bytes, keeps byte 2 and negates the points |
| SignatureBytes.SignatureBuffer.TestZero | cpp/utils/signature.h:164-169 | The loop accepts if and only if every byte is zero |
| SignatureBytes.SignatureBuffer.TestSatisfy | cpp/utils/signature.h:334-340 | The loop accepts if and only if no point byte falls short |
| Keys.ArmorPacks | cpp/utils/signature.h:39-68 | An armor's signature packs its slots, its torso multiplier and its true points |
| Keys.JewelPacks | cpp/utils/signature.h:70-108 | A jewel's signature packs its size and its points modulo the width of a byte |
| SlotRecurrence.Fill3Exact | cpp/utils/jewels_query.h:199-220 | The recurrence yields a key if and only if it is the sum of admitted jewels that meet the packing inequalities |
| JewelPlans.FillExact | cpp/utils/jewels_query.h:222-249 | The same with jewels in a body piece that counts several times |
| SlotClients.SlotClient.CalculateFixed | cpp/utils/jewels_query.h:158-166 | With any valid cache the answer is the set of sums of exactly so many jewels of one size |
| SlotClients.SlotClient.Calculate1 | cpp/utils/jewels_query.h:168-177 | With any valid cache the answer is the full set for the 1-slots |
| SlotClients.SlotClient.Calculate2 | cpp/utils/jewels_query.h:179-197 | With any valid cache the answer is the full set for 1- and 2-slots |
| SlotClients.SlotClient.Calculate3 | cpp/utils/jewels_query.h:199-220 | With any valid cache the answer is the full set; no cell becomes stale or partial |
| SlotClients.SlotClient.Query | cpp/utils/jewels_query.h:56-68 | After any sequence of queries a query returns exactly the totals of the plans that fit |
| SlotClients.CellDecodes | cpp/utils/jewels_query.h:199-201 | A cell's index lies in the buffer and determines its sub-problem |
| SlotClients.BodyCellDecodes | cpp/utils/jewels_query.h:229-233 | The same for cells with body slots and multiplier; no two sub-problems share a cell |
| JewelSearch.DepthFirst | cpp/utils/jewels_query.h:120-130 | The naive search returns the same set as the recurrence when every size has a jewel |
| JewelSearch.Dfs | cpp/utils/jewels_query.h:251-299 | The depth-first search collects exactly the sums reachable by largest-first greedy stuffing from its position |
| JewelSearch.ReachableIsAchievable | cpp/utils/jewels_query.h:251-299 | Largest-first greedy stuffing reaches the sum of every jewel multiset that fits |
| JewelPlans.PlanReadsBack | cpp/utils/jewels_query.h:72-117 | Slot counts, body slots and points of a plan read back from its summed key |
| JewelPlans.PlanExtends | cpp/utils/jewels_query.h:72-117 | A plan for the residual joins the plan already made |
| JewelSolvers.JewelSolver.Search | cpp/utils/jewels_query.h:394-425 | Backtracking returns true if and only if some choice of jewels with the asked counts cancels the key; then the lists hold such a choice, and otherwise they are as before |
| JewelSolvers.JewelSolver.Solve | cpp/utils/jewels_query.h:337-384 | The CHECK holds if and only if the key is solvable, and the counted jewels then have the sizes and points that the key records |
| JewelSolvers.SolutionSolves | cpp/utils/jewels_query.h:394-425 | The chosen jewels have the recorded sizes, in and outside the body piece, and the recorded points modulo a byte |
| EmittedKeys.EmittedKeySolvable | cpp/utils/jewels_query.h:353-366 | The CHECK never fails on a key that sums jewels the solver knows |
| JewelAssigners.PlacementFits | cpp/utils/jewels_query.h:432-477 | Any placement that overfills no part meets the packing inequalities |
| JewelAssigners.JewelAssigner.Pop | cpp/utils/jewels_query.h:450-471 | One call places a largest waiting jewel; of the parts that take it, it chooses one with the fewest free slots; every part with free slots stays in exactly one list; false changes nothing and means that nothing fits |
| JewelAssigners.JewelAssigner.AddPart | cpp/utils/jewels_query.h:438-441 | A part goes into the list of its slots |
| JewelAssigners.JewelAssigner.AddJewel | cpp/utils/jewels_query.h:443-448 | All copies of a jewel go into the list of its size |
| JewelAssigners.JewelAssigner.AssignAll | cpp/core/pruners.h:425-429 | Popping until false places every jewel if and only if they meet the packing inequalities; none is lost or doubled, and each part takes what its free slots give |
| NodePools.CountOrStable | cpp/core/or_and_tree.h:60-69 | Appending nodes changes no armor set of an existing tree, nor how often it is listed |
| NodePools.NodePool.MakeOR | cpp/core/or_and_tree.h:60-64 | Appends one OR and keeps the pool well-founded |
| NodePools.NodePool.MakeAnd | cpp/core/or_and_tree.h:66-69 | Appends one AND whose children are older |
| SkillSplitters.SkillSplitter.Max | cpp/core/or_and_tree.h:163-165 | The largest total over all armor sets of the tree, reached by one of them |
| SkillSplitters.SkillSplitter.MaxOr | cpp/core/or_and_tree.h:203-212 | The same for an OR; terminates because the children of its ANDs are older |
| SkillSplitters.SkillSplitter.constructor | cpp/core/or_and_tree.h:143-161 | Reads off every armor's points in the skill, and which pieces are body pieces |
| SkillSplitters.SkillSplitter.SplitAnd | cpp/core/or_and_tree.h:263-297 | Collects, by points, exactly the pairs of an AND that reach the bound, each as often as before; bounding the right side by the bound minus the left maximum loses nothing |
| SkillSplitters.SkillSplitter.SplitOr | cpp/core/or_and_tree.h:299-321 | One tree for every point value that reaches the bound, keys distinct |
| SkillSplitters.SkillSplitter.Split | cpp/core/or_and_tree.h:167-176 | The new trees together list exactly the armor sets with at least the asked points, as often as before; each has one point value, added to its key, and sets with the same points share a tree |
| TinyMaps.VectorBasedListMap.Push | cpp/utils/tiny_map.h:17-27 | Appends to the list of the key, or starts one at the end |
| TinyMaps.CompositeListMap.Push | cpp/utils/tiny_map.h:104-114 | With the byte-wide index map the effect is the same as that of the linear scan |
| TinyMaps.KeysAreFew | cpp/utils/tiny_map.h:95-114 | There are never more lists than keys, so a byte holds every index and 255 stays free |
| Foundations.FoundationBuilder.ClassifyArmors | cpp/core/armor_up.h:185-220 | For every part, each allowed armor stands in exactly one OR, that of its signature; allowed are, by their own fields, the armors of the part that are not on the blacklist, have the weapon type and gender asked for or "both", as gear the weapon slots asked for, and elsewhere, but for amulets, are within the rare limits and on the whitelist if there is one |
| Foundations.FoundationBuilder.MergeForests | cpp/core/armor_up.h:222-252 | Merging a part with the forest below lists every combination exactly once, in the tree of its signature |
| Foundations.FoundationBuilder.Foundation | cpp/core/armor_up.h:40-62 | The trees list every choice of one allowed armor per part exactly once, and nothing else; two sets share a tree if and only if their signatures are equal |
| MergeSteps.ProductOfForests | cpp/core/armor_up.h:222-252 | The product of two forests that list everything once lists everything once |
| SetTotals.WholeKey | cpp/core/armor_up.h:229-234 | A root's key packs the free slots, the body slots, one plus the number of torso-up pieces, and the true point totals with the body piece multiplied |
| SetTotals.WholeReadsBack | cpp/utils/signature.h:289-295 | These read back from the key |
| SetTotals.WholeBounds | cpp/utils/signature.h:20-32 | Seven parts keep every field within its bits, and the multiplier between 1 and 5 |
| JewelPruners.JewelPruner.Next | cpp/core/pruners.h:39-75 | Skips exactly the trees without a candidate and brings the next with all its candidates; each is the key of a plan that fits and meets one more effect |
| JewelPruners.JewelPruner.Collect | cpp/core/pruners.h:46-70 | The candidates of a tree are all keys of jewels for the effect that fit what earlier jewels leave and pass the test |
| JewelPruners.PrunedKept | cpp/core/pruners.h:39-75 | Pruning keeps the invariant of trees, with one more effect met |
| Residuals.PlanForLeft | cpp/core/pruners.h:56-69 | A key for the residual, added to a planned key, is the key of a plan for the whole set |
| Residuals.LeftInCache | cpp/utils/jewels_query.h:302-306 | What planned jewels leave lies within the cache |
| SkillSplitPruners.SkillSplitPruner.Next | cpp/core/pruners.h:155-206 | Conservation over a run: which tuples share a tree with which jewel key, and how often each is listed, among the tree it brings and those still to come, is as before the call; false means that nothing was left |
| SkillSplitPruners.SkillSplitPruner.TryNext | cpp/core/pruners.h:159-203 | One tree is replaced by the trees that list exactly what the stage keeps of it: nothing, if a later effect is out of reach or no candidate passes with its most points |
| SkillSplitPruners.SkillSplitPruner.PreFilter | cpp/core/pruners.h:126-153 | Passes if and only if every later effect could still be met |
| SkillSplitPruners.SkillSplitPruner.Collect | cpp/core/pruners.h:170-187 | All keys that pass with the most points, and the fewest points they leave to get |
| SkillSplitPruners.SkillSplitPruner.SplitRoot | cpp/core/pruners.h:189-201 | The split fills the buffer with complete trees, at least one, and every armor set is delivered with exactly the candidates that give it enough points, as often as before, together with the sets of the same points |
| SplitStages.SomeNewRoot | cpp/core/pruners.h:166-201 | Max and Split agree: where some candidate passes with the most points the split is not empty |
| SplitStages.NewRootComplete | cpp/core/pruners.h:193-200 | In every new tree the candidate that asks for the fewest points passes |
| SplitPruning.PassesWith | cpp/core/pruners.h:180-200 | The byte test of a new tree is the comparison of true totals |
| PointBounds.NoWrap | cpp/utils/signature.h:334-340 | Under the standing bounds no tested byte wraps |
| UnpackSteps.EnterInner | cpp/core/pruners.h:280-290 | Pushing a level adds its armor sets, in order, to what is still to come |
| UnpackSteps.PopLevel | cpp/core/pruners.h:242-266 | An exhausted level has nothing to come |
| Unpackers.Unpacker.Advance | cpp/core/pruners.h:240-266 | Popping ends at the deepest level with another armor or AND, and the sets still to come are the same |
| Unpackers.Unpacker.Descend | cpp/core/pruners.h:277-299 | Restoring the stack makes the first set of the subtree current, along a path of depth seven |
| Unpackers.Unpacker.Next | cpp/core/pruners.h:239-301 | Each call yields the next set in depth-first order, tree after tree; false means that none is left, then and ever after |
| Enumerations.EnumOrCount | cpp/core/pruners.h:239-301 | The depth-first order lists every armor set as often as the tree does |
| Enumerations.EnumOrStable | cpp/core/or_and_tree.h:60-69 | Appending nodes changes neither the sets of an existing tree nor their order |
| Unpackers.SetsOfRootsStable | cpp/core/pruners.h:239-301 | A list of trees unpacks to the same sets in the same order after more nodes are appended |
| RootCounts.UnpackedCount | cpp/core/pruners.h:239-301 | Over a whole run every armor set is yielded as often as the trees list it |
| RawSets.DefensePruner.Next | cpp/core/pruners.h:339-349 | Yields the sets with enough defense, in order, and no others |
| RawSets.UnpackedKept | cpp/core/pruners.h:239-301 | Every unpacked set is allowed, and each of its keys completes it |
| RawSets.SatisfiedMeans | cpp/utils/signature.h:334-340 | Passing the byte test is having the required points |
| Finalizers.Finalizer.Next | cpp/core/pruners.h:380-442 | Every set it brings meets all requirements. With one set per armor tuple the tuples passed over are those of which every key, solved and placed, gives a set with an active negative skill; without that check none is passed over |
| Finalizers.Finalizer.Finish | cpp/core/pruners.h:391-439 | Solving never fails; the finished set meets all requirements unless a negative skill is active |
| Finalizers.Finalizer.Place | cpp/core/pruners.h:398-429 | All jewels of the plan, and no others, sit in the parts, and no part is overfilled |
| Finalizers.Finalizer.NextRaw | cpp/core/pruners.h:455-469 | The next armor set becomes current, HEAD first, with its multiplier and keys |
| FinalSteps.SolutionFits | cpp/core/pruners.h:391-396 | The solved jewels fit the free slots and the body piece, and the true totals reach what is required |
| FinalSteps.FinishedResult | cpp/testing/verifier.h:220-235 | A placed solution passes every check of the verifier, once its negative skills have been checked |
| FinalSteps.PlacedPoints | cpp/dataset/dataset.cc:134-166 | The points of the finished set are those of its armors and of the planned jewels, wherever these were placed |
| Placements.StatOfSet | cpp/dataset/dataset.cc:134-166 | The points of a set split into armors, free jewels and body jewels times the multiplier |
| Completeness.HopelessIff | cpp/core/pruners.h:46-72 | For one effect a tree has no candidate if and only if none of its armor sets can be completed |
| Iterators.ListIterator.Next | cpp/iterators/base.h:22-34 | Brings the next element; at the end false, then and ever after; the unsigned position starts at -1 |
| Stats.GetMultiplier | cpp/dataset/dataset.cc:77-85 | One plus the number of parts whose armor has a single effect, with id zero |
| Stats.GetTotalDefense | cpp/dataset/dataset.cc:113-119 | The sum of the defenses |
| Stats.StatSum | cpp/dataset/dataset.cc:134-176 | The points of a set in a skill, written out: six parts once, the body piece and its jewels once and once more for every torso-up piece |
| Stats.OccursIff | cpp/dataset/dataset.cc:134-176 | A skill occurs exactly when some armor or some placed jewel lists it |
| Stats.GetSkillStats | cpp/dataset/dataset.cc:134-176 | Exactly the skills that occur, each with its true total, the body piece and its jewels multiplied |
| Stats.NegativeActivated | cpp/dataset/dataset.cc:178-188 | True if and only if some threshold of the system, wherever it stands, is negative and not below the points |
| Stats.ThresholdOrder | cpp/dataset/dataset.cc:178-188 | The order of the thresholds makes no difference |
| Datasets.PointsOfDistinct | cpp/dataset/dataset.cc:134-166 | A skill listed once has the points of that entry, and one not listed has none |
| Verifiers.VerifySkillRequirement | cpp/testing/verifier.h:46-94 | Passes if and only if every effect occurs and reaches its points and, when asked, no negative skill is active |
| Verifiers.VerifyRareRequirement | cpp/testing/verifier.h:152-174 | Passes if and only if every piece but gear and amulet is within the rare limits |
| Verifiers.VerifyArmorBlacklist | cpp/testing/verifier.h:177-198 | Passes if and only if every piece but gear and amulet respects both lists |
| Verifiers.VerifyJewelBlacklist | cpp/testing/verifier.h:200-218 | Passes if and only if no jewel is on the list |
| Verifiers.VerifyArmorSet | cpp/testing/verifier.h:220-235 | There is no message if and only if the set meets every requirement, and a message of each kind exactly when its requirement is not met |
| Verifiers.MeetsPartsIff | cpp/testing/verifier.h:97-218 | Which single armor, jewel or total offends which requirement |
| Verifiers.MeetsSkillsIff | cpp/testing/verifier.h:46-94 | The skill requirement fails exactly when an effect is missing or short, or, if asked, some negative threshold is reached |
| FinalSteps.ArmorsMeet | cpp/utils/filter.h:23-50 | What the filter admits meets the weapon, gender, rare and list requirements |
| DexFormatters.StringBatchFormat | cpp/utils/formatter.h:34-53 | The text of all sets if `max_output` is not positive, else of that many or, if there are fewer, of all |
| DexFormatters.HelmetTextIs | cpp/utils/formatter.h:210-239 | The text of a helmet with two jewels, character by character, with the numbers of the tables |
| DexFormatters.EffectsTextIs | cpp/utils/formatter.h:174-191 | The text of an effect list: the number of the skill in its table, the points, each followed by a space |
| DexFormatters.Format | cpp/utils/formatter.h:162-171 | The text of one set |
| DexFormatters.WriteArmor | cpp/utils/formatter.h:210-239 | The text of one part: label, slots or effects or id, jewels |
| Tokens.Tokenizer.Next | csharp/winbind_wrapper/winbind_wrapper/parser.cs:50-69 | The next token of the text, and the position after it |
| Tokens.Tokenizer.ExpectIntegerList | csharp/winbind_wrapper/winbind_wrapper/parser.cs:89-107 | The numbers up to the closing parenthesis |
| ResultParsers.ParsePiece | csharp/winbind_wrapper/winbind_wrapper/armor_up_wrapper.cs:27-42 | Reads one piece, or refuses, or ends in an exception, as the grammar says |
| ResultParsers.ParseAmulet | csharp/winbind_wrapper/winbind_wrapper/armor_up_wrapper.cs:62-89 | Reads an amulet; only its first two effects |
| ResultParsers.ParseAnswer | csharp/winbind_wrapper/winbind_wrapper/armor_up_wrapper.cs:115-168 | Reads parts in any order up to the closing parenthesis |
| ResultParsers.ReadAnswers | csharp/winbind_wrapper/winbind_wrapper/armor_up_wrapper.cs:225-234 | Reads sets up to the first refusal |
| RoundTrips.BatchNumbers | cpp/utils/formatter.h:193-239 | The ids, jewels and skills read from a written batch are those of the tables of armors, jewels and skills, part by part and in order |
| RoundTrips.BatchThrows | csharp/winbind_wrapper/winbind_wrapper/parser.cs:77-87 | A number beyond 32 bits in a later set raises an exception, and the sets before it are lost as well |
| RoundTrips.OpenIgnored | csharp/winbind_wrapper/winbind_wrapper/armor_up_wrapper.cs:27-42 | The token in place of an opening parenthesis may be any |
| RoundTrips.AnyCase | csharp/winbind_wrapper/winbind_wrapper/armor_up_wrapper.cs:172-200 | Part names are read in any mixture of capital and small letters |
| RoundTrips.OtherTokens | csharp/winbind_wrapper/winbind_wrapper/parser.cs:50-69 | The tokens of quoted text, T, NIL and of characters that start none |
| Numerals.NumberTextIs | cpp/utils/formatter.h:205-206 | Numbers are written in decimal: a digit by itself, a further digit at the end, a minus in front |
| Numerals.ReadMoreDigits | csharp/winbind_wrapper/winbind_wrapper/parser.cs:77-87 | Digits are read most significant first, within 32 bits |
| Numerals.NumberReadBack | csharp/winbind_wrapper/winbind_wrapper/parser.cs:77-87 | Every 32-bit integer reads back from its decimal text |
| RoundTrips.BatchReadsBack | csharp/winbind_wrapper/winbind_wrapper/armor_up_wrapper.cs:225-234 | Reading what was written gives back every set in order: ids, weapon slots, jewels, and the first two effects of the amulet; a set that breaks off after them is left out |
| RoundTrips.AmuletWhole | csharp/winbind_wrapper/winbind_wrapper/armor_up_wrapper.cs:69-82 | Reading a written set gives its amulet back with all effects if and only if the amulet has at most two |
| RoundTrips.ReadPart | cpp/utils/formatter.h:210-239 | One written part reads back as that part, whatever follows |

## Left out

- Unpackers.Unpacker.Next: the value read from the stack at index -1 on the first call is never used; the model reads the stack only at a valid level.
- SlotClients.SlotClient.Query: the reference into the cache that the original returns is a value here.
- JewelSearch.DepthFirst: needs a jewel of every size, as the original does; it indexes an empty list otherwise.
- Solutions.QualifiesIff: speaks of jewels with one to three slots; a jewel with no slot is never used by the engine.
- Tokens.Tokenizer.Next: digits and white space are those of single-byte text; other Unicode classes are not modelled.
- ResultParsers.ParsePiece: a list that was never assigned is empty here, not null.
- Lazy chaining: each stage here runs to its end before the next starts. Since appending nodes changes neither the sets of existing trees (`CountOrStable`) nor their order (`SetsOfRootsStable`), what is handed over is the same.
- Reset of the iterators other than the list, and their Empty tests.
- Iteration order of hash maps and hash sets: groups are kept in insertion order, and an arbitrary element of a set is taken. Hash functions are not modelled.
- Reallocation of the node vectors, snapshots of the pool, and references that a reallocation would invalidate.
- The `key` of an AND, which the engine never sets or reads.
- MapBasedListMap, which nothing uses.
- Queries without effects: the finalizer would take the last of no keys.
- OptimizeQuery and EffectScore: heuristics on floating-point numbers, not on the search path.
- The JSON printer, the command-line programs, the older explorer, and the Lisp engine beyond its stuffing rule.
- Loading of the database, parsing of queries, names and translations, logging and timing.
- The message texts of the verifier; only which check failed is kept.
- Conversion between internal and database ids: a table from ids to numbers stands for it.
