# ITKOptimalTransport core in Dafny

This project models the combinatorial core of ITKOptimalTransport. The library solves optimal transport problems between two multiscale point-set hierarchies. It solves from the coarsest scale to the finest, and at each scale it builds a sparse transport plan from the plan of the scale above.

The model covers:

- **Plans and hierarchy records.**
  - `Plans.TransportPlan` is the sparse arc set: one ordered map from target id to `Path` per source id. It keeps a running path counter, per-target inbound counts and a cursor that walks arcs in (source id, target id) order and may erase them.
  - `Plans.TransportPlanSolutions` holds a primary plan and its alternatives.
  - `Nodes.TransportNode` holds a node's mass, potential, potential bounds and cached radius.
  - `Levels.Level` is one scale of a hierarchy.
- **LP encodings.**
  - `TransportSolver.TransportLPSolver` lays out the rows, the auxiliary supply and sink nodes, the columns and the unbalanced-mass table of createLP, and provides storeLP, setPotentials, setupBasis and the offset accessors.
  - `Lemon.LemonSolver` is the array-backed backend. It does cost and capacity scaling and integer supply balancing.
  - The MOSEK backend is modelled for its status conversions and status-key vectors.
  - `DenseLP.TransportLP` is the dense transportation LP.
  - `Grid3d.Grid3dMinFlow` is the 26-neighbour grid flow.
- **Multiscale drivers.**
  - `Multiscale.MultiscaleTransport`: normalisation, start-level selection and the two-cursor level walk.
  - `MultiscaleLP.MultiscaleTransportLP`: the strategy dispatch of solveLP.
  - `MultiscaleSinkhorn.MultiscaleSinkhornTransport`: top-k candidate selection through bounded priority queues.
- **Strategies.**
  - Propagation: neighbourhood, maximum entropy and Sinkhorn propagation.
  - Alternative plans: capacity, iterated capacity and randomized.
  - Refinement: expand, refine and potential, including the potential-bound propagation and the pruned search down the target hierarchy.
- **Utilities.**
  - The text headers of EigenLinalgIO and their data-file path resolution.
  - The CSV lines of TransportCoupling.
  - The work-unit partition CreateRanges of the point-set metric.

Masses and costs are exact reals. Transport cost, `pow`, `exp`, `sqrt`, neighbourhood queries, random draws, the network simplex and the Sinkhorn iterations are parameters of the operations that use them.

Where the code has an evident bug, the main member models the intended behaviour. A separate member models the code as written, with a lemma that exhibits the difference (see "## Findings").

## Model

| member | source | states |
|---|---|---|
| Nodes.TransportNode.constructor | include/TransportNode.h:34-40 | a new node has piMin = the largest double, piMax = its negation, mass -1, no parent, cost radius -1 and no children |
| Nodes.TransportNode.SetMass | include/TransportNode.h:51-54 | the mass becomes m |
| Nodes.TransportNode.AddChild | include/TransportNode.h:57-59 | the children list grows by the node at its end |
| Nodes.TransportNode.SetParent | include/TransportNode.h:67-69 | the parent becomes p |
| Nodes.TransportNode.SetPotential | include/TransportNode.h:148-150 | the potential becomes p |
| Nodes.TransportNode.ResetPi | include/TransportNode.h:122-126 | both bounds are set exactly; the defaults are the bounds of a new node |
| Nodes.TransportNode.SetPiMin | include/TransportNode.h:128-132 | piMin becomes min(piMin, pi) and never rises |
| Nodes.TransportNode.SetPiMax | include/TransportNode.h:134-138 | piMax becomes max(piMax, pi) and never falls |
| Nodes.TransportNode.GetTransportCostRadius | include/TransportNode.h:81-95 | the first call caches and returns max(0, largest cost to a child); later calls return the cache even after children are added |
| Nodes.TransportNode.GetAverageTransportCost | include/TransportNode.h:98-108 | the result is the sum of the costs over all child pairs divided by the number of pairs |
| Nodes.RowCost | include/TransportNode.h:101-103 | the inner loop's sum equals the cost sum from one child to every child of the other node |
| Nodes.CostRadiusIsMax | include/TransportNode.h:84-92 | the cached radius is non-negative, bounds every child's cost, and is 0 or attained by a child |
| Nodes.AverageWithinPairCosts | include/TransportNode.h:98-108 | the average lies between the smallest and the largest cost of a child pair |
| Levels.Level.constructor | include/MultiscaleTransportLevel.h:26-27 | a new level has the given scale and parent and no nodes |
| Levels.Level.AddNode | include/MultiscaleTransportLevel.h:38-40 | the node list grows by the node at its end |
| Levels.Level.GetMaximalRadius | include/MultiscaleTransportLevel.h:51-62 | the result is non-negative, bounds every node's radius, and is 0 or attained by a node |
| Levels.Level.Root | include/MultiscaleTransportLevel.h:72-81 | the level reached along the parent links has no parent |
| Levels.Level.GetRootLevel | include/MultiscaleTransportLevel.h:72-81 | the walk returns the parentless end of the parent chain, the level itself when it has no parent |
| Plans.PathOrder | include/TransportPlan.h:42-71 | Path's < is the lexicographic order on (from id, to id), > its converse, == equality of the keys, and exactly one of them holds |
| Plans.TransportPlan.constructor | include/TransportPlan.h:97-110 | a new plan has one empty row per source node, zero inbound counts per target node, counter 0, zero times, cost the largest double and status -1 |
| Plans.TransportPlan.HasPath | include/TransportPlan.h:148-155 | true exactly when the arc is stored |
| Plans.TransportPlan.GetNumberOfPaths | include/TransportPlan.h:258-260 | in a plan built by addPath the counter is the number of arcs added |
| Plans.TransportPlan.GetPath | include/TransportPlan.h:158-165 | on a present arc, the stored path has that arc's key |
| Plans.TransportPlan.GetNumberOfToPaths | include/TransportPlan.h:168-170 | the number of arcs leaving the source |
| Plans.TransportPlan.FromPathsCount | include/TransportPlan.h:171-173 | in a plan built by addPath, getNumberOfFromPaths(t) is the number of arcs into t |
| Plans.TransportPlan.DenseIndices | include/TransportPlan.h:108 | in a plan built by addPath, arc indices are distinct and are exactly 0 .. getNumberOfPaths()-1 |
| Plans.TransportPlan.AddPath | include/TransportPlan.h:175-188 | an absent arc is stored with index = counter, the counter and the target's inbound count grow by one; a present arc keeps everything except its weight, which becomes max(old, new), and its index is returned; no other arc changes |
| Plans.TransportPlan.GetPathIndex | include/TransportPlan.h:191-201 | the index of a present arc, -1 for an absent one; in a plan built by addPath -1 means exactly absent |
| Plans.TransportPlan.Current | include/TransportPlan.h:230-232 | the path under the cursor has the cursor's key |
| Plans.TransportPlan.Begin | include/TransportPlan.h:204-222 | the cursor goes to the least arc, or to the end exactly when the plan is empty |
| Plans.TransportPlan.Next | include/TransportPlan.h:237-254 | with erase the current arc is removed and the counter drops by one (inbound counts stay); the cursor moves to the least arc after the old position, or to the end when none is left |
| Plans.TransportPlan.Pass | include/TransportPlan.h:237-254 | a walk that has passed arcs D has, after one step, passed D and the arc it was on, and strictly fewer arcs remain |
| Plans.TransportPlan.SetCurrentWeight | include/TransportPlan.h:230-232 | writing through pathIteratorCurrent() changes the current arc's weight alone |
| Plans.TransportPlan.CreateCopy | include/TransportPlan.h:322-333 | a new plan over the same levels with the same arcs, counter, inbound counts and times; its cost and status are the constructor's |
| Plans.MaxWeightIsMax | include/TransportPlan.h:185 | the combined weight is the largest weight any plan gives the arc |
| Plans.TransportPlanSolutions.constructor | include/TransportPlan.h:383-386 | a new holder has a new empty primary plan and no alternatives |
| Plans.TransportPlanSolutions.SetPrimarySolution | include/TransportPlan.h:399-401 | the primary plan becomes the given one |
| Plans.TransportPlanSolutions.AddAlternativeSolution | include/TransportPlan.h:413-415 | the alternatives grow by the plan at their end |
| Plans.TransportPlanSolutions.GetCombinedPaths | include/TransportPlan.h:419-433 | a new plan holding exactly the arcs of the primary plan and of every alternative, each with the largest weight a plan gives it; primary arcs keep their index; no plan's arcs change |
| Plans.AddAlternatives | include/TransportPlan.h:423-430 | the loop over the alternatives leaves the combination of all rows |
| Plans.AddAlternative | include/TransportPlan.h:424-429 | adding one alternative's arcs extends the combination by that row |
| Plans.AddAll | include/TransportPlan.h:425-429 | walking one plan's cursor and adding each arc merges its arc set into the result |
| Plans.CombineStep | include/TransportPlan.h:423-430 | merging row n into the combination of the rows before it gives the combination of rows 0..n |
| TransportSolver.ColumnLayout | include/TransportLPSolver.h:138-152 | the column blocks createLP lays out (source distribution, target distribution, exchange and circulation, arcs) partition the column indices: every index has exactly one kind and every kind one index |
| TransportSolver.MassTableTotal | include/TransportLPSolver.h:175-250 | the auxiliary row bounds of the unbalanced table hold T - S in total for every unbalanced transport type and nothing under BALANCED |
| TransportSolver.MassTableSigns | include/TransportLPSolver.h:175-250 | for non-negative masses the supply rows get non-negative bounds, the sink rows non-positive ones and the auxiliary columns non-negative upper bounds; exchange is open only under UNBALANCED_FREE and circulation only under UNBALANCED_FREE_SOURCE |
| TransportSolver.RowBoundsTotal | include/TransportLPSolver.h:256-276 | the row bounds of createLP (source masses, negated target masses, auxiliary rows) sum to 0 under every unbalanced type and to S - T under BALANCED |
| TransportSolver.FixedColumnEnds | include/TransportLPSolver.h:292-360 | every distribution, exchange and circulation column joins two different rows |
| TransportSolver.ArcColumnEnds | include/TransportLPSolver.h:363-371 | the column of an arc between nodes of the two levels joins source row id and target row ns + id, two different rows |
| TransportSolver.LPColumnsInGraph | include/TransportLPSolver.h:138-371 | every column of the LP of a well-keyed plan joins two different rows, so the network the backend builds has every arc inside its graph |
| TransportSolver.PlaceStatuses | include/TransportLPSolver.h:465-479 | writing statuses cs from an offset puts cs at those positions and keeps every other status |
| TransportSolver.BasisMissesArcColumns | include/TransportLPSolver.h:465-479 | setupBasis as written leaves arc column 0 LOWER when given [BASIC] with pathOffset 1, where getColumnStatus(0) reads it back |
| TransportSolver.NodeMassSum | include/TransportLPSolver.h:96-107 | the loop sums the masses of the level's nodes |
| TransportSolver.TransportLPSolver.constructor | include/TransportLPSolver.h:68-74 | the layer keeps its backend, transport type, mass cost and lambda, and starts at not-last-scale with zero offsets |
| TransportSolver.TransportLPSolver.SetLastScale | include/TransportLPSolver.h:78-80 | the last-scale flag becomes the given value |
| TransportSolver.TransportLPSolver.CreateLP | include/TransportLPSolver.h:82-375 | the backend holds exactly the LP of the plan: rows carry the node masses (targets negated) and the unbalanced table, columns follow the layout with arc j at pathOffset + j, the basis is the start basis and every arc lies inside the graph; the plan's arcs are unchanged |
| TransportSolver.TransportLPSolver.SetLayout | include/TransportLPSolver.h:117-152 | the row and column indices assigned for ns sources and nt targets are the layout's |
| TransportSolver.TransportLPSolver.StoreLP | include/TransportLPSolver.h:380-416 | the plan cost becomes the p-th root of the objective, every arc keeps its identity and takes the primal of its column as weight, target nodes take the dual of row ns + id and other source nodes the dual of row id |
| TransportSolver.TransportLPSolver.SetPotentials | include/TransportLPSolver.h:440-460 | as storeLP's potential part, and both pi bounds of every node equal its new potential |
| TransportSolver.TransportLPSolver.SetupBasis | include/TransportLPSolver.h:465-479 | as written: the given statuses go to backend columns and rows 0, 1, ... with no arc offset, the rest unchanged |
| TransportSolver.TransportLPSolver.SetupArcBasis | include/TransportLPSolver.h:465-479 | corrected: arc column i's status goes to backend column pathOffset + i, and getColumnStatus(i) reads back exactly the statuses given |
| TransportSolver.TransportLPSolver.SetColumnBoundsLower | include/TransportLPSolver.h:483-485 | arc column col gets lower bound lb and an unbounded upper bound, nothing else changes |
| TransportSolver.TransportLPSolver.SetColumnBounds | include/TransportLPSolver.h:487-489 | arc column col gets bounds lb and ub |
| TransportSolver.TransportLPSolver.SetColumnObjective | include/TransportLPSolver.h:491-493 | arc column col gets cost cost |
| TransportSolver.TransportLPSolver.SetColumnCoefficients | include/TransportLPSolver.h:496-499 | arc column col joins rows s and t |
| TransportSolver.TransportLPSolver.SetColumnStatus | include/TransportLPSolver.h:510-512 | arc column col gets status s |
| TransportSolver.TransportLPSolver.GetColumn | include/TransportLPSolver.h:514-516 | arc column col reads back as two entries: +1 at its source row and -1 at its target row |
| TransportSolver.TransportLPSolver.AddColumns | include/TransportLPSolver.h:518-520 | n new unjoined zero-cost LOWER columns with bounds [0, 1] follow all others |
| TransportSolver.TransportLPSolver.SetRowStatus | include/TransportLPSolver.h:526-528 | row row gets status s |
| TransportSolver.TransportLPSolver.SolveLP | include/TransportLPSolver.h:534-536 | the backend solves once and its outcome (optimal with objective, primal and dual, or failure) is left for the getters |
| TransportSolver.TransportLPSolver.SetupStandardBasis | include/TransportLPSolver.h:565-567 | every column becomes LOWER and every row BASIC |
| TransportSolver.BuildLP | include/TransportLPSolver.h:117-371 | once the masses are summed: the backend is sized, the layout assigned, and its row bounds and columns are exactly RowBounds and LPColumns |
| TransportSolver.FillLP | include/TransportLPSolver.h:256-371 | the setter calls of createLP leave row bounds RowBounds, columns LPColumns and every arc inside the graph |
| TransportSolver.SourceDistribution | include/TransportLPSolver.h:314-335 | the source loop writes each source row's mass and its two distribution columns and nothing else |
| TransportSolver.TargetDistribution | include/TransportLPSolver.h:339-360 | the target loop writes each target row's negated mass and its two distribution columns and nothing else |
| TransportSolver.SetAuxiliary | include/TransportLPSolver.h:256-309 | the four auxiliary row bounds and the exchange and circulation columns are those of the table |
| TransportSolver.FillArcColumns | include/TransportLPSolver.h:363-371 | walking the plan's cursor writes the column of each arc at pathOffset plus its index, so the columns after the fixed ones are ArcColumns |
| TransportSolver.StoreWeights | include/TransportLPSolver.h:386-392 | every arc takes the primal of its column as weight and the plan stays well formed |
| TransportSolver.StorePotentials | include/TransportLPSolver.h:401-416 | each source node takes the dual of row id, then each target node the dual of row ns + id; with reset both pi bounds follow |
| Lemon.TruncBounds | include/LemonSolver.h:122 | the (long long) cast truncates toward zero: within 1 of x and no farther from 0 than x |
| Lemon.MaxCoeffIsMax | include/LemonSolver.h:75-80 | the first loop's running maximum, started at 0, is non-negative and bounds every coefficient |
| Lemon.CostScaling | include/LemonSolver.h:81-86 | the cost scaling is positive in both branches (maxVal when no coefficient is positive) |
| Lemon.SumsBoundRows | include/LemonSolver.h:89-99 | the positive sum bounds every positive row bound from above and the other sum every other row bound from below |
| Lemon.CapacityPositive | include/LemonSolver.h:100-101 | one non-zero row bound makes the maximum capacity positive, so the capacity scaling is defined |
| Lemon.CapacityScaling | include/LemonSolver.h:100-101 | with a positive maximum capacity the capacity scaling is positive |
| Lemon.FirstMaxIsMax | include/LemonSolver.h:117-142 | the tracked max index is -1 exactly when no supply is positive, and otherwise the first index of the largest supply |
| Lemon.FirstMinIsMin | include/LemonSolver.h:117-142 | the tracked min index is -1 exactly when no supply is negative, and otherwise the first index of the smallest supply |
| Lemon.SumSign | include/LemonSolver.h:144-150 | a positive imbalance has a positive supply and a negative imbalance a negative one |
| Lemon.BalanceFindsIndex | include/LemonSolver.h:144-150 | the index the balancing step writes is never -1 when the imbalance is non-zero |
| Lemon.BalanceSumsToZero | include/LemonSolver.h:144-150 | after balancing, the integer supplies sum to zero |
| Lemon.BalanceTouchesOne | include/LemonSolver.h:144-150 | balancing changes at most one supply, and none when the supplies already balance |
| Lemon.SuppliesSumToZero | include/LemonSolver.h:111-150 | the supplies of all |mass| + 1 graph nodes, the extra node at 0, sum to zero |
| Lemon.ScaledSum | include/LemonSolver.h:122 | the sum of the scaled row bounds is the scaled sum |
| Lemon.TruncSum | include/LemonSolver.h:122 | truncating n scaled bounds moves their sum by less than n |
| Lemon.ImbalanceBelowRowCount | include/LemonSolver.h:121-150 | when the row bounds balance exactly, the imbalance the balancing step removes is smaller than the number of rows |
| Lemon.ProblemBounds | include/LemonSolver.h:165-187 | the integer network has supplies summing to zero on |mass| + 1 nodes, lower bounds at least 0, capacities at most maxVal + 1 (exactly maxVal + 1 when clipped) and costs at most maxVal |
| Lemon.CostBound | include/LemonSolver.h:185 | a coefficient no larger than the largest scales to at most maxVal |
| Lemon.SolveOutcome | include/LemonSolver.h:198-218 | the solve outcome has exactly as many primals as columns and duals as rows |
| Lemon.LemonSolver.constructor | include/LemonSolver.h:42-46 | a new backend has no rows or columns, ns = nt = 0 and no successful solve |
| Lemon.LemonSolver.GetColumn | include/LemonSolver.h:320-326 | every column reads back as two entries: its source row with 1 and its target row with -1 |
| Lemon.LemonSolver.SetRowBounds | include/LemonSolver.h:277-279 | only row i's bound changes, to m |
| Lemon.LemonSolver.SetColumnBoundsLower | include/LemonSolver.h:287-290 | the lower bound becomes lb and the upper bound the largest double |
| Lemon.LemonSolver.SetColumnBounds | include/LemonSolver.h:291-294 | only column col's bounds change, to lb and ub |
| Lemon.LemonSolver.SetColumnStatus | include/LemonSolver.h:301-303 | only column col's status changes |
| Lemon.LemonSolver.SetRowStatus | include/LemonSolver.h:306-308 | only row row's status changes |
| Lemon.LemonSolver.SetColumnObjective | include/LemonSolver.h:311-313 | only column i's cost changes |
| Lemon.LemonSolver.SetColumnCoefficients | include/LemonSolver.h:315-318 | only column col's two rows change, to s and t |
| Lemon.LemonSolver.AddColumns | include/LemonSolver.h:328-336 | n new columns follow the others with rows -1, cost 0, primal 0, status LOWER and bounds [0, 1] |
| Lemon.LemonSolver.AddRows | include/LemonSolver.h:340-344 | n new rows follow the others with bound 0, status BASIC and dual 0 |
| Lemon.LemonSolver.DeleteLP | include/LemonSolver.h:360-372 | every array is cleared and ns reset; nt keeps its value |
| Lemon.LemonSolver.CreateLP | include/LemonSolver.h:262-267 | an empty problem over nSource sources and nTarget targets |
| Lemon.LemonSolver.SetupStandardBasis | include/LemonSolver.h:250-257 | every column LOWER and every row BASIC, sizes unchanged |
| Lemon.LemonSolver.SolveLP | include/LemonSolver.h:55-221 | the outcome is the network simplex outcome of the integer network built from the arrays, the objective and flows scaled back and the node potentials as duals; the iteration count is 1 |
| Lemon.Solve | include/LemonSolver.h:55-218 | the arrays' outcome equals SolveOutcome, with one primal per column and one dual per row |
| Lemon.BuildNetwork | include/LemonSolver.h:72-187 | the two scalings and the integer network are those of CapacityScaling, CostScaling and Problem |
| Lemon.MaxCoefficient | include/LemonSolver.h:75-80 | the loop finds the largest coefficient, or 0 |
| Lemon.MassSums | include/LemonSolver.h:89-99 | the loop finds the sum of the positive row bounds and the sum of the others |
| Lemon.IntegerSupplies | include/LemonSolver.h:109-150 | the supply loop and the balancing step give Supplies(mass), whose sum is zero |
| Lemon.ArcList | include/LemonSolver.h:165-171 | one arc per column, from its source row to its target row |
| Lemon.ArcBounds | include/LemonSolver.h:173-187 | each arc's integer lower bound, clipped capacity and cost |
| Lemon.SumCost | include/LemonSolver.h:200 | the simplex total cost is the sum of flow times cost over the arcs |
| Lemon.Flows | include/LemonSolver.h:212-215 | each primal is its arc's flow divided by the capacity scaling |
| Lemon.Potentials | include/LemonSolver.h:216-218 | each dual is its node's potential |
| Mosek.ConvertRoundTrip | include/MOSEKSolver.h:312-357 | converting a status to a MOSEK key and back gives it again, except FREE, which comes back as UNKNOWN |
| Mosek.ToMosekKeys | include/MOSEKSolver.h:335-357 | convertToMOSEK produces only named keys and is injective except that UNKNOWN and FREE share UNK |
| Mosek.ConvertSpecialCases | include/MOSEKSolver.h:312-357 | exactly FREE and UNKNOWN map to UNK, UNK maps back to UNKNOWN, and an unnamed key maps to END |
| Mosek.FromMosekRange | include/MOSEKSolver.h:312-332 | every status except FREE is convertFromMOSEK of some key |
| Mosek.MosekSolver.constructor | include/MOSEKSolver.h:38-44 | a new backend has no task and empty key vectors |
| Mosek.MosekSolver.SetColumnStatus | include/MOSEKSolver.h:280-282 | the column stores the key of s, so getColumnStatus reads back s (UNKNOWN for FREE) |
| Mosek.MosekSolver.SetRowStatus | include/MOSEKSolver.h:284-286 | the row stores the key of s, so getRowStatus reads back s (UNKNOWN for FREE) |
| Mosek.MosekSolver.DeleteLP | include/MOSEKSolver.h:296-307 | with a task: the task is dropped and both key vectors cleared; without one nothing changes |
| Mosek.MosekSolver.CreateLP | include/MOSEKSolver.h:162-174 | a new empty task; the key vectors are cleared only when there was a task to delete |
| Mosek.MosekSolver.AddColumns | include/MOSEKSolver.h:178-183 | n new variables and n new LOW column keys |
| Mosek.MosekSolver.AddRows | include/MOSEKSolver.h:187-192 | n new constraints and n new LOW row keys (not BASIC as in the Lemon backend) |
| Mosek.MosekSolver.SetupStandardBasis | include/MOSEKSolver.h:151-158 | the keys of the task's columns become LOW and those of its rows BAS, the others kept |
| DenseLP.DenseRows | include/TransportLP.h:47-52 | one row bound per source and target: from(i) on row i and -to(j) on row r + j |
| DenseLP.DenseIndex | include/TransportLP.h:55-63 | the column of pair (i, j) is i c + j, lies below r c and gives back i and j |
| DenseLP.DenseCover | include/TransportLP.h:55-63 | every column below r c is the column of the pair (k / c, k % c) |
| DenseLP.DenseColumn | include/TransportLP.h:58-60 | pair (i, j) gets a column from row i to row r + j with cost C(i, j) |
| DenseLP.DenseInjective | include/TransportLP.h:55-63 | two pairs never share a column |
| DenseLP.DenseRowsSum | include/TransportLP.h:47-52 | the row bounds sum to total supply less total demand, so the LP is balanced when the totals agree |
| DenseLP.TransportLP.constructor | include/TransportLP.h:29-30 | the LP keeps its backend |
| DenseLP.TransportLP.Solve | include/TransportLP.h:39-83 | the backend holds the dense LP (r + c rows, r c columns, start basis) and its solve outcome; the plan holds exactly the pairs whose column has a positive primal, with that value |
| DenseLP.BuildDense | include/TransportLP.h:41-63 | the backend is sized r + c rows by r c columns and every column lies inside the graph |
| DenseLP.DenseRowBounds | include/TransportLP.h:47-52 | the row bounds are DenseRows |
| DenseLP.DenseColumns | include/TransportLP.h:55-63 | every column index i c + j gets lower bound 0, cost C(i, j) and rows (i, r + j) |
| DenseLP.PositivePlan | include/TransportLP.h:69-79 | the plan holds exactly the pairs with positive primal, with that value |
| Grid3d.ScanFacts | include/Grid3dMinFlow.h:69-71 | the triple loop visits every cell of the grid exactly once, in row-major order: d0 d1 d2 cells |
| Grid3d.FilterFacts | include/Grid3dMinFlow.h:76-102 | the source list holds, in scan order, exactly the cells with both masses not zero and a non-negative difference; the target list those with a negative difference |
| Grid3d.SourceNotTarget | include/Grid3dMinFlow.h:89-102 | no cell is both a source and a target |
| Grid3d.Classify | include/Grid3dMinFlow.h:64-108 | every cell gets id -1, and the sources and targets are listed in scan order with their supplies |
| Grid3d.AssignIds | include/Grid3dMinFlow.h:111-129 | source n gets id n and target n id nSources + n; id2spatial lists the cells in id order |
| Grid3d.NumberedIds | include/Grid3dMinFlow.h:64-129 | after classification and numbering, id2spatial inverts nId on the nodes and every other cell keeps -1 |
| Grid3d.NumberedInjective | include/Grid3dMinFlow.h:111-129 | every node gets its own id in [0, nSources + nTargets) |
| Grid3d.NumberedUnique | include/Grid3dMinFlow.h:111-129 | the id tensor is determined by id2spatial: two that number it the same way are equal |
| Grid3d.NeighboursFacts | include/Grid3dMinFlow.h:146-172 | the neighbours of a cell are exactly the in-grid cells around it that have an id, each once and in row-major order, at most 26 |
| Grid3d.CellArcsFacts | include/Grid3dMinFlow.h:146-181 | a node gets one arc to every node around it and nowhere else, with cost sqrt(ii^2 + jj^2 + kk^2) plus lambda times the mass difference when lambda > 0 |
| Grid3d.AllArcsBound | include/Grid3dMinFlow.h:137-139 | at most 26 arcs per cell, so the 27 slots per cell reserved suffice |
| Grid3d.BuildArcs | include/Grid3dMinFlow.h:141-196 | the arc loops produce AllArcs over the scan |
| Grid3d.NeighbourArcs | include/Grid3dMinFlow.h:146-185 | the three offset loops for one cell skip offsets outside the grid, the cell itself and cells without an id, and give that cell's arcs |
| Grid3d.CellArcsDistinct | include/Grid3dMinFlow.h:168-174 | every arc of a cell leaves its id and enters a node's id, and no two enter the same id |
| Grid3d.AllArcsDistinct | include/Grid3dMinFlow.h:141-189 | over cells visited once no pair of node ids gets two arcs, so each flow has its own key in the plan |
| Grid3d.AllArcsInRange | include/Grid3dMinFlow.h:168-174 | every arc end is a node id in [0, nSources + nTargets) |
| Grid3d.SplitSupply | include/Grid3dMinFlow.h:76-78 | a cell that is no node has supply zero, so sources and targets together carry the whole supply |
| Grid3d.DiffTotalValue | include/Grid3dMinFlow.h:82-88 | the total supply is the X1 mass minus the X2 mass, each divided by its grid total under scaleMass |
| Grid3d.GridRowsBalance | include/Grid3dMinFlow.h:59-62 | with scaleMass the supplies sum to zero and the network is balanced; without it they sum to X1.sum() - X2.sum() |
| Grid3d.GridRowBounds | include/Grid3dMinFlow.h:202-207 | the source supplies go to rows 0 .. nSources - 1 and the target supplies after them |
| Grid3d.GridColumns | include/Grid3dMinFlow.h:209-214 | column i gets lower bound 0, the cost of arc i and rows (asInd[i], atInd[i]) |
| Grid3d.BuildGridLP | include/Grid3dMinFlow.h:200-214 | the backend holds nSources + nTargets rows with the supplies and one column per arc |
| Grid3d.PlanKeys | include/Grid3dMinFlow.h:220-227 | the plan holds exactly the keys of the arcs with positive flow |
| Grid3d.PlanValues | include/Grid3dMinFlow.h:220-227 | with distinct keys each positive-flow arc keeps its own flow in the plan |
| Grid3d.ArcPlan | include/Grid3dMinFlow.h:220-227 | the loop keeps each column's primal when positive, under its arc's key |
| Grid3d.Grid3dMinFlow.constructor | include/Grid3dMinFlow.h:32-34 | cost starts at -1 and id2spatial empty |
| Grid3d.Grid3dMinFlow.Solve | include/Grid3dMinFlow.h:43-230 | id2spatial lists the sources then the targets, nId numbers them, the backend holds the supplies and one column per neighbour arc (distinct keys, ends in range, at most 26 per cell) and its solve outcome, and the plan is the positive-flow arcs |
| Grid3d.Network | include/Grid3dMinFlow.h:47-196 | the supplies are the LP rows, the ids number the nodes and the arcs join distinct pairs of node ids, at most 26 per cell |
| Grid3d.SolvePlan | include/Grid3dMinFlow.h:220-227 | the plan's keys are exactly the (tail id, head id) of the arcs with positive flow, each mapped to its flow |
| Multiscale.StartLevel | include/MultiscaleTransport.h:35-41 | a requested number of scales in [0, size - 1] starts at size - 1 - nScales, any other number at the coarsest level 0 |
| Multiscale.MeanRadiusWithin | include/MultiscaleTransport.h:254-261 | the mean radius lies between the smallest and the largest local radius of the level |
| Multiscale.ScheduleExtends | include/MultiscaleTransport.h:116-172 | appending a call that fits the schedule keeps the earlier calls scheduled |
| Multiscale.AsWrittenZeroFrom | include/MultiscaleTransport.h:213-230 | as written the bottom-up pass gives every node of the finest levels mass 0, since leaves have no children and sums above them add only zeros |
| Multiscale.AsWrittenMassesVanish | include/MultiscaleTransport.h:213-237 | as written the whole hierarchy ends with mass 0, so the coarsest level the scaling divides by sums to 0 |
| Multiscale.PositiveFrom | include/MultiscaleTransport.h:213-230 | after the corrected pass over positive leaves every node has positive mass |
| Multiscale.PassBalanced | include/MultiscaleTransport.h:213-230 | without scaling the corrected pass leaves every node with children at the summed mass of its children |
| Multiscale.ScaledBalanced | include/MultiscaleTransport.h:232-248 | dividing every mass by the coarsest level's sum t keeps each sum of children, gives each leaf its old mass over t and makes the coarsest level sum to 1 |
| Multiscale.SingleRootTotal | include/MultiscaleTransport.h:233-237 | for a single root the assigned and the summed total agree |
| Multiscale.AssignedTotalMissesRoots | include/MultiscaleTransport.h:233-237 | with two roots of masses 1 and 3 the assigned total is 3, not 4, so the coarsest level would sum to 4/3 instead of 1 |
| Multiscale.SumMasses | include/MultiscaleTransport.h:223-226 | the loop sums the children's masses in list order |
| Multiscale.SetNodeMass | include/TransportNode.h:51-54 | setMass on a node of the hierarchy changes only that node's mass |
| Multiscale.SumNode | include/MultiscaleTransport.h:217-229 | a node gets the summed mass of its children, or, when childless and leaves are kept, its own |
| Multiscale.SumLevel | include/MultiscaleTransport.h:216-229 | every node of the level, in list order, gets its SumNode value |
| Multiscale.SumPass | include/MultiscaleTransport.h:213-230 | corrected pass, finest level first: every node follows the Summed rule against its mass before the pass, childless nodes keeping theirs |
| Multiscale.SumPassAsWritten | include/MultiscaleTransport.h:213-230 | the pass as written, where a childless node gets mass 0 |
| Multiscale.ScaleLevel | include/MultiscaleTransport.h:243-246 | every node of the level is divided by total |
| Multiscale.ScalePass | include/MultiscaleTransport.h:238-247 | every node of every level is divided by total |
| Multiscale.RootTotal | include/MultiscaleTransport.h:233-237 | corrected: the total is the summed mass of the coarsest level's nodes |
| Multiscale.RootTotalAsWritten | include/MultiscaleTransport.h:233-237 | as written: each root's mass overwrites the total, which ends as the last root's mass |
| Multiscale.MapSumSign | include/MultiscaleTransport.h:233-237 | a sum of non-negative masses is non-negative, and positive exactly when one of them is |
| Multiscale.AssignedTotalShort | include/MultiscaleTransport.h:233-237 | for non-negative root masses the assigned total never exceeds the summed one, and falls short exactly when a root other than the last carries mass |
| Multiscale.ScaleHierarchy | include/MultiscaleTransport.h:232-248 | after the corrected pass every node is divided by the coarsest level's summed mass, which is positive |
| Multiscale.MultiscaleTransport.GetMeanRadius | include/MultiscaleTransport.h:254-261 | the mean local node radius of the level; p is not used |
| Multiscale.MultiscaleTransport.MatchStart | include/MultiscaleTransport.h:67-105 | from the start level, move finer while the gap to the other side's mean radius does not grow, and stop at the finest level; the result is the first level after which the gap grows |
| Multiscale.MultiscaleTransport.Walk | include/MultiscaleTransport.h:111-172 | max(|aLevels| - a, |bLevels| - b) calls; call k solves level min(a + k, last) against min(b + k, last) with the previous call's result, only the last flagged lastScale; the solutions are the calls' primary plans in order |
| Multiscale.MultiscaleTransport.Normalize | include/MultiscaleTransport.h:209-250 | corrected normalize: every node with children gets the summed mass of its children, leaves keep theirs, and under scaleMass every mass is divided by the coarsest level's total so that it sums to 1 |
| Multiscale.MultiscaleTransport.Solve | include/MultiscaleTransport.h:26-177 | both hierarchies are normalised, the roots recorded, the start levels clamped (and matched when asked) and the scale loop run from there as Walk states |
| Multiscale.MultiscaleTransport.StartAt | include/MultiscaleTransport.h:57-108 | the clamped start levels, or with matchStartLevel the side with the larger mean radius moved on (the target side on a tie) |
| Multiscale.MultiscaleTransport.Run | include/MultiscaleTransport.h:57-172 | start levels then the scale loop; no mass is read or written |
| Multiscale.MultiscaleTransport.NormalizeBeside | include/MultiscaleTransport.h:43-44 | normalising one hierarchy leaves a disjoint one's node lists, children and masses as they were |
| Multiscale.MultiscaleTransport.SetRoots | include/MultiscaleTransport.h:46-52 | rootSource and rootTarget become the first levels; no mass changes |
| Multiscale.MultiscaleTransport.Prepare | include/MultiscaleTransport.h:35-44 | the numbers of scales are clamped and both hierarchies normalised |
| MultiscaleLP.After | include/MultiscaleTransportLP.h:112-123 | the holder a chain leaves has the chain's last result as primary plan and the alternatives untouched |
| MultiscaleLP.ChainStep | include/MultiscaleTransportLP.h:113-117 | a chain grows by one run of the next strategy on the holder it left |
| MultiscaleLP.ChainUnique | include/MultiscaleTransportLP.h:113-123 | a chain is determined by its strategies: two chains over the same list agree run by run |
| MultiscaleLP.ChainPrefix | include/MultiscaleTransportLP.h:113-123 | every prefix of a chain is the chain of the strategies' prefix |
| MultiscaleLP.MultiscaleTransportLP.constructor | include/MultiscaleTransportLP.h:41-47 | propagation1 is a neighbourhood propagation with factor 0, maxNeighborhoodSize 10000000, nothing else set |
| MultiscaleLP.MultiscaleTransportLP.SetPropagationStrategy1 | include/MultiscaleTransportLP.h:55-60 | propagation1 becomes ps |
| MultiscaleLP.MultiscaleTransportLP.SetPropagationStrategy2 | include/MultiscaleTransportLP.h:63-68 | propagation2 becomes ps |
| MultiscaleLP.MultiscaleTransportLP.SetMaxNeighborhoodSize | include/MultiscaleTransportLP.h:71-73 | maxNeighborhoodSize becomes n |
| MultiscaleLP.MultiscaleTransportLP.AddNeighborhoodStrategy | include/MultiscaleTransportLP.h:76-78 | the strategy is appended, so strategies run in insertion order |
| MultiscaleLP.MultiscaleTransportLP.SetLastScaleNeighborhoodStrategy | include/MultiscaleTransportLP.h:81-86 | lastScaleNeighborhood becomes ns |
| MultiscaleLP.MultiscaleTransportLP.Refinements | include/MultiscaleTransportLP.h:112-124 | no strategy without a previous solution; otherwise the added strategies in order, then the last-scale one exactly when lastScale holds and it is set |
| MultiscaleLP.MultiscaleTransportLP.SolveLP | include/MultiscaleTransportLP.h:93-130 | above maxNeighborhoodSize nodes only propagation2 runs; otherwise propagation1 runs and the chain of Refinements replaces the primary plan run after run; the last-scale flag is false on return |
| StrategyLP.PendingInGraph | include/TransportLPSolver.h:534-536 | the backend may solve exactly when no appended arc column is left unfilled |
| StrategyLP.HeldIndices | include/TransportLPSolver.h:380-417 | in a held LP every arc column and every node row that storeLP and setPotentials index exists |
| StrategyLP.Create | include/TransportLPSolver.h:82-375 | after createLP the LP layer holds the LP of the plan, with the backend's start basis |
| StrategyLP.Solve | include/TransportLPSolver.h:534-536 | solveLP keeps the LP held and leaves the backend's solve outcome |
| StrategyLP.CreateSolve | include/TransportLPSolver.h:82-375 | createLP then solveLP keep the plan's arcs and leave a solved LP of it |
| StrategyLP.Store | include/TransportLPSolver.h:376-412 | each arc's weight becomes its column's primal value and the cost becomes pow(objective, 1/p); target nodes then hold the dual of row ns + id and other source nodes the dual of row id |
| StrategyLP.AddSolvedCopy | include/CapacityPropagationStrategy.h:63-67 | a copy of the primary plan receives the solution and is appended to the alternatives, with the primary's arcs and counts; storeLP leaves the duals as the level nodes' potentials |
| StrategyLP.Bound | include/TransportLPSolver.h:487-489 | setColumnBounds writes both bounds of column pathOffset + col and nothing else |
| StrategyLP.BoundBelow | include/TransportLPSolver.h:483-485 | setColumnBoundsLower writes the lower bound and resets the upper bound to the largest double |
| StrategyLP.Price | include/TransportLPSolver.h:491-493 | setColumnObjective writes the cost of column pathOffset + col alone |
| StrategyLP.FillColumn | include/NeighborhoodPropagationStrategy.h:211-217 | the four setter calls give arc column index the path's cost, bounds [0, max], status LOWER and rows (from id, ns + to id) |
| StrategyLP.AddAndFill | include/NeighborhoodPropagationStrategy.h:207-218 | addPath then the column fill: a new arc takes the first unfilled column, a present arc refills its own column; other columns are kept |
| StrategyLP.AddToPlan | include/TransportPlan.h:175-188 | addPath on a plan that fits its levels returns a valid index and performs the addPath step |
| StrategyLP.Widen | include/TransportLPSolver.h:518-520 | addColumns(n) appends n unfilled columns and keeps every existing column |
| StrategyLP.Warm | include/TransportLPSolver.h:465-479 | setupBasis with the arc statuses placed from pathOffset on (the corrected placement) and the row statuses from row 0 |
| NeighborhoodStrategy.LocalNodeRadius | include/NeighborhoodStrategy.h:29-37 | a parentless node answers with its own local radius, any other node with its parent's (the ensures restate the body, as for a getter) |
| NeighborhoodStrategy.SiblingsShareRadius | include/NeighborhoodStrategy.h:29-37 | two children of one parent are searched with the same radius |
| NeighborhoodStrategy.ChildOfRoot | include/NeighborhoodStrategy.h:29-37 | a child of a root is searched with the root's own local radius |
| NeighborhoodStrategy.SearchRadius | include/ExpandNeighborhoodStrategy.h:130-135 | (rTo + rFrom) times the factor is non-negative for non-negative radii and factor, and 0 for factor 0 |
| NeighborhoodStrategy.TakePotentials | include/TransportLPSolver.h:440-460 | each source node gets potential, piMin and piMax equal to the dual of row id, each target node the dual of row |S| + id, and the LP and plan are unchanged |
| Coupling.TransportCoupling.constructor | include/itkTransportCoupling.h:84 | a new coupling has no entries |
| Coupling.TransportCoupling.AlloacteMap | include/itkTransportCoupling.h:63-66 | resize: the entries below the new size are kept and new indices get empty entries |
| Coupling.TransportCoupling.SaveToCsv | include/itkTransportCoupling.h:68-80 | the lines written are "i , t , w" for each source index in turn and its targets in ascending order, with no header |
| Coupling.EntryCsv | include/itkTransportCoupling.h:74-77 | the inner loop writes one source's entries in ascending target order |
| Coupling.CsvRowCount | include/itkTransportCoupling.h:72-78 | exactly one line is written per (source index, target) entry |
| Coupling.CsvRowsOrder | include/itkTransportCoupling.h:72-78 | the lines of source i follow those of sources before it, in ascending target order |
| OrderedKeys.SortedKeys | include/itkTransportCoupling.h:74 | the keys a std::map iterator visits are the map's keys in ascending order |
| OrderedKeys.SortedUnique | include/itkTransportCoupling.h:74 | the ascending listing of a key set is unique |
| OrderedKeys.SortedKeysFirst | include/itkTransportCoupling.h:74 | the iterator visits the least key first and then the others in order |
| NeighborhoodPropagation.AddAllCombinations | include/NeighborhoodPropagationStrategy.h:119-142 | toAdd grows by every pair of a child in fKids and a child in tKids that is not yet an arc of sol, in loop order, each with its transport cost |
| NeighborhoodPropagation.AddNeighborCombinations | include/NeighborhoodPropagationStrategy.h:179-190 | for each node of the source ball and each of the target ball, in order, the combinations of their children |
| NeighborhoodPropagation.AddStrip | include/NeighborhoodPropagationStrategy.h:181-189 | the children of one source ball node with those of each target ball node |
| NeighborhoodPropagation.Collect | include/NeighborhoodPropagationStrategy.h:155-200 | the cursor walk visits every arc of prevSol in increasing order and queues the block of each arc that moved mass; the walk's order holds exactly prevSol's arcs |
| NeighborhoodPropagation.CollectStep | include/NeighborhoodPropagationStrategy.h:157-200 | one arc of the walk: its block is queued and the cursor moves on |
| NeighborhoodPropagation.CollectOne | include/NeighborhoodPropagationStrategy.h:160-199 | an arc with weight 0 queues nothing; otherwise the children of its ends, or with rFactor > 0 the children of the nodes in the two balls of radius rFactor times the local radius |
| NeighborhoodPropagation.QueueInLevels | include/NeighborhoodPropagationStrategy.h:155-200 | everything queued joins a child of a coarse source node to a child of a coarse target node, so it lies on the finer levels |
| NeighborhoodPropagation.NewEntriesCover | include/NeighborhoodPropagationStrategy.h:207-218 | the arcs of toAdd are those of its new entries and those already in the plan; new entries' arcs are distinct and new |
| NeighborhoodPropagation.AddIfNew | include/TransportPlan.h:175-188 | addPath of an arc the plan lacks adds it with one column filled for it; an arc it has changes nothing |
| NeighborhoodPropagation.AddQueued | include/NeighborhoodPropagationStrategy.h:203-218 | corrected add phase: each queued arc the plan lacks is added once with one new column filled for it; afterwards the plan has its arcs plus one per new entry, in order, and the LP holds it |
| NeighborhoodPropagation.AddQueuedAsWritten | include/NeighborhoodPropagationStrategy.h:203-218 | as written: toAdd.size() columns are appended first; each repeated queued arc refills its existing column, so one appended column per repeat stays unfilled |
| NeighborhoodPropagation.RepeatLeavesUnfilled | include/NeighborhoodPropagationStrategy.h:205-216 | two queued paths for one arc leave an appended column with no end rows, an arc outside the graph solveLP builds |
| NeighborhoodPropagation.SharedBlockRepeats | include/NeighborhoodPropagationStrategy.h:170-190 | ballNeighborhood queues a path twice when the expanded blocks of two coarse arcs share a path |
| NeighborhoodPropagation.CoveredExpands | include/NeighborhoodPropagationStrategy.h:175-176 | a plan on covered levels expands inside the child maps |
| NeighborhoodPropagation.AddPlain | include/NeighborhoodPropagationStrategy.h:207-210 | without columns: addPath for every queued path; the plan gets the new entries' arcs numbered in order |
| NeighborhoodPropagation.AddAllPairs | include/NeighborhoodPropagationStrategy.h:47-58 | every pair of a source node and a target node, source-major, with its transport cost and index source id times the number of targets plus target id |
| NeighborhoodPropagation.GrownCovers | include/NeighborhoodPropagationStrategy.h:207-218 | the arcs of a grown plan are those it had and those queued |
| NeighborhoodPropagation.FirstPass | include/NeighborhoodPropagationStrategy.h:77-80 | ballNeighborhood without columns over the coarse primary plan, then createLP and solveLP; the LP holds the plan |
| NeighborhoodPropagation.FirstQueue | include/NeighborhoodPropagationStrategy.h:77 | the first pass's queue over the primary plan, added without columns |
| NeighborhoodPropagation.CombinedQueue | include/NeighborhoodPropagationStrategy.h:82-83 | the second pass walks the combined plan of the coarse solutions, expanded by the factor |
| NeighborhoodPropagation.SecondPass | include/NeighborhoodPropagationStrategy.h:83-87 | the combined queue is added with columns and the LP solved again |
| NeighborhoodPropagation.CreateSolveStore | include/NeighborhoodPropagationStrategy.h:60-62 | createLP, solveLP and storeLP: the plan's weights are the primals of its columns and its cost the p-th root of the objective; target nodes then hold the dual of row ns + id and other source nodes the dual of row id |
| NeighborhoodPropagation.PropagateAll | include/NeighborhoodPropagationStrategy.h:42-65 | without a coarser solution: a new holder whose plan has every source-target pair, solved and stored, the level nodes' potentials being the duals |
| NeighborhoodPropagation.Passes | include/NeighborhoodPropagationStrategy.h:74-87 | both passes on the new empty plan: the first over the coarse primary plan, the second over the combined plan |
| NeighborhoodPropagation.NewPasses | include/NeighborhoodPropagationStrategy.h:72-87 | a new holder over the fine levels whose primary plan has had both passes |
| NeighborhoodPropagation.PropagateFrom | include/NeighborhoodPropagationStrategy.h:69-95 | from the coarser solutions: a fresh holder over the fine levels with no alternatives; its first pass over the coarse primary plan, its second over the combined plan with the expansion factor, storeLP after the second solve, which leaves the duals as the level nodes' potentials |
| MaxEntropyPropagation.RowMassIsProduct | include/MaxEntropyPropagationStrategy.h:52-56 | a row of sumw is the source child's mass times the total mass of the target children |
| MaxEntropyPropagation.SumWIsProduct | include/MaxEntropyPropagationStrategy.h:48-57 | sumw is the total mass of the source children times that of the target children |
| MaxEntropyPropagation.ShareForm | include/MaxEntropyPropagationStrategy.h:67 | the source's order of evaluation m(f2) m(t2) w / sumw gives the modelled share |
| MaxEntropyPropagation.RowSpread | include/MaxEntropyPropagationStrategy.h:61-70 | the weights of a row of child paths are the row's shares of w / sumw |
| MaxEntropyPropagation.BlockSpread | include/MaxEntropyPropagationStrategy.h:58-71 | the weights of the child paths of a coarse arc are their shares of w / sumw |
| MaxEntropyPropagation.BlockConserves | include/MaxEntropyPropagationStrategy.h:45-71 | corrected split: when the children carry mass (sumw not 0), the weights of a coarse arc's child paths add up to its own weight |
| MaxEntropyPropagation.QueueConserves | include/MaxEntropyPropagationStrategy.h:40-73 | corrected split: the fine plan moves what the coarse plan moved, arc by arc in walk order |
| MaxEntropyPropagation.AsWrittenRowZero | include/MaxEntropyPropagationStrategy.h:65-67 | as written every child path has weight 0, since path.w reads the new, shadowing path's own zero weight |
| MaxEntropyPropagation.AsWrittenBlockZero | include/MaxEntropyPropagationStrategy.h:58-71 | as written the child paths of a coarse arc weigh nothing together |
| MaxEntropyPropagation.AsWrittenDropsFlow | include/MaxEntropyPropagationStrategy.h:58-71 | as written a coarse arc with w > 0 is replaced by child paths of total weight 0, so the flow is lost |
| MaxEntropyPropagation.PlanStepIsInsert | include/MaxEntropyPropagationStrategy.h:68 | the rows addPath leaves are those Insert computes |
| MaxEntropyPropagation.InsertAllHas | include/MaxEntropyPropagationStrategy.h:40-73 | the arcs after the inserts are those of the plan and those of the child paths |
| MaxEntropyPropagation.AddChild | include/MaxEntropyPropagationStrategy.h:65-69 | addPath of the child path, then its weighted cost added to the plan's cost |
| MaxEntropyPropagation.SumMasses | include/MaxEntropyPropagationStrategy.h:48-57 | the loop sums the mass products of every source child with every target child |
| MaxEntropyPropagation.AddRow | include/MaxEntropyPropagationStrategy.h:61-70 | for every target child the path with its cost and its share of w is added, and the plan cost grows by the weighted costs |
| MaxEntropyPropagation.AddBlock | include/MaxEntropyPropagationStrategy.h:58-71 | every source-target child pair of a coarse arc is added with its cost and share |
| MaxEntropyPropagation.SpreadArc | include/MaxEntropyPropagationStrategy.h:42-71 | for one coarse path: sumw, then the child paths with their shares |
| MaxEntropyPropagation.SpreadAll | include/MaxEntropyPropagationStrategy.h:38-73 | every coarse arc, in increasing order, is replaced by its child paths in the new plan, whose cost is the sum of their weighted costs |
| MaxEntropyPropagation.InheritPotentials | include/MaxEntropyPropagationStrategy.h:76-84 | every child of a node of the level gets that node's potential; nothing outside the children changes |
| MaxEntropyPropagation.SetAll | include/MaxEntropyPropagationStrategy.h:81-83 | each child gets potential pi |
| MaxEntropyPropagation.Inherit | include/MaxEntropyPropagationStrategy.h:76-84 | every child key gets the potential its parent had before the loop |
| MaxEntropyPropagation.PotentialsBoth | include/MaxEntropyPropagationStrategy.h:75-96 | the children of the coarse source nodes, then those of the coarse target nodes, take their parent's potential |
| MaxEntropyPropagation.SpreadNew | include/MaxEntropyPropagationStrategy.h:32-73 | a new plan, its cost reset to 0, spread from the coarse primary plan |
| MaxEntropyPropagation.Propagate | include/MaxEntropyPropagationStrategy.h:27-101 | a fresh holder whose plan is the coarse primary plan spread over the children (cost the weighted sum of the child paths' costs); then every child of a coarse source node and of a coarse target node has its parent's potential |
| CapacityPropagation.ShiftNonZero | include/CapacityPropagationStrategy.h:54-55 | min(k, n) - 0.01 is never zero, so the cap's divisions are defined |
| CapacityPropagation.CapacitySuffices | include/CapacityPropagationStrategy.h:52-56 | for k >= 1, a node with n >= 1 arcs that all carry the cap of one of them has capacity for all of its mass, at both ends of the arc |
| CapacityPropagation.CapPositive | include/CapacityPropagationStrategy.h:54-55 | the cap of an arc is positive when one of its end nodes has positive mass, for k >= 1 |
| CapacityPropagation.ComputeAlternateSolutions | include/CapacityPropagationStrategy.h:41-70 | every arc column of the primary plan's LP gets bounds [0, cap], the LP is solved, and a copy of the primary plan holding the capped solution is appended as the last alternative; the primary plan keeps its arcs and the level nodes' potentials are the duals of the capped solve |
| CapacityPropagation.CapColumns | include/CapacityPropagationStrategy.h:46-57 | every arc column of the primary plan gets bounds [0, cap]; other columns keep theirs |
| CapacityPropagation.CapWalk | include/CapacityPropagationStrategy.h:47-57 | the cursor walk caps the column of each arc in increasing order |
| CapacityPropagation.CapStep | include/CapacityPropagationStrategy.h:49-56 | one arc's column gets [0, max(m(from) / (min(k, nFrom) - 0.01), m(to) / (min(k, nTo) - 0.01))] |
| IteratedCapacityPropagation.ComputeAlternateSolutions | include/IteratedCapacityPropagationStrategy.h:41-158 | a copy of the primary plan gets its own LP; max(nIterations, 0) rounds each cap, solve, lift and re-solve when not optimal, store, and append their plan as an alternative, each round continuing from the previous one's bounds and rows; after at least one round the level nodes' potentials are the last round's duals |
| IteratedCapacityPropagation.Start | include/IteratedCapacityPropagationStrategy.h:46-47 | the copy of the primary plan gets the LP createLP builds |
| IteratedCapacityPropagation.Iterate | include/IteratedCapacityPropagationStrategy.h:49-151 | the loop runs the rounds in order and each appends its plan |
| IteratedCapacityPropagation.Step | include/IteratedCapacityPropagationStrategy.h:50-149 | one round on res, which becomes the last alternative, and a fresh copy continues; the potentials are this round's duals |
| IteratedCapacityPropagation.StoreRound | include/IteratedCapacityPropagationStrategy.h:50-148 | the LP part of round i, then storeLP into res, which joins the alternatives and leaves the round's duals as potentials |
| IteratedCapacityPropagation.Round | include/IteratedCapacityPropagationStrategy.h:50-147 | round i: cap, solve, lift when not optimal, store; earlier alternatives keep what they hold and the potentials are the round's duals |
| IteratedCapacityPropagation.CopyRound | include/IteratedCapacityPropagationStrategy.h:148-149 | res joins the alternatives and a copy of it continues the chain |
| IteratedCapacityPropagation.SolveRound | include/IteratedCapacityPropagationStrategy.h:51-145 | cap and solve, then lift and solve again exactly when the capped LP is not optimal |
| IteratedCapacityPropagation.CapSolve | include/IteratedCapacityPropagationStrategy.h:51-71 | capping and the first solve of round i |
| IteratedCapacityPropagation.LiftSolve | include/IteratedCapacityPropagationStrategy.h:137-142 | lifting and the second solve |
| IteratedCapacityPropagation.CapArcs | include/IteratedCapacityPropagationStrategy.h:51-66 | every arc with flow gets bounds [0, w (0.9 + 0.05 u)]; every other column keeps its bounds |
| IteratedCapacityPropagation.CapColumn | include/IteratedCapacityPropagationStrategy.h:55-62 | the column of a path with w > 0 gets [0, w (0.9 + 0.05 u)]; otherwise its bounds are unchanged |
| IteratedCapacityPropagation.LiftArcs | include/IteratedCapacityPropagationStrategy.h:137-141 | every arc column gets bounds [0, MaxDouble]; every other column keeps its bounds |
| RandomizedPropagation.ComputeAlternateSolutions | include/RandomizedNeighborhoodPropagationStrategy.h:41-72 | nRandom rounds each perturb the objective of every arc column of the primary plan's LP, solve, and append a copy of the primary plan holding the solution; after at least one round the potentials are the last round's duals |
| RandomizedPropagation.Round | include/RandomizedNeighborhoodPropagationStrategy.h:45-70 | perturb, solve and append the copy holding the solution, the potentials being this round's duals |
| RandomizedPropagation.PerturbSolve | include/RandomizedNeighborhoodPropagationStrategy.h:47-64 | the perturbing walk and the solve; objectives outside the arc columns stay as they were |
| RandomizedPropagation.PerturbArcs | include/RandomizedNeighborhoodPropagationStrategy.h:47-62 | every arc column's objective becomes the arc's perturbed cost; other columns keep theirs |
| RandomizedPropagation.PerturbStep | include/RandomizedNeighborhoodPropagationStrategy.h:49-61 | one arc's objective becomes cost + normal draw times (pow(dist + r, p) - pow(dist - r, p)) / 5 |
| RandomizedPropagation.DrawnColumn | include/RandomizedNeighborhoodPropagationStrategy.h:53-61 | in round i the objective of an arc's column is its cost plus its draw times the perturbation range over 5 |
| RandomizedPropagation.ZeroDrawIsCost | include/RandomizedNeighborhoodPropagationStrategy.h:60-61 | with zero draws a round solves the LP with each arc's own cost as objective |
| RandomizedPropagation.NoAccumulation | include/RandomizedNeighborhoodPropagationStrategy.h:61 | perturbations do not accumulate: an arc's objective in a round depends only on the arc and that round's draw |
| ArcWalk.ColumnsStep | include/TransportPlan.h:204-254 | in a dense plan arcs have distinct indices, so the cursor never writes a passed arc's column twice |
| ArcWalk.RewriteStep | include/TransportPlan.h:237-254 | rewriting the column of the next arc extends the rewrite by that arc |
| CapacityRounds.CapBetween | include/IteratedCapacityPropagationStrategy.h:55-62 | for a draw in [0, 1] the cap of an arc with flow w > 0 lies between 0.9 w and 0.95 w, below the flow |
| CapacityRounds.CapSkips | include/IteratedCapacityPropagationStrategy.h:55 | an arc without flow keeps both its bounds in the capping walk |
| CapacityRounds.LiftedIsFresh | include/IteratedCapacityPropagationStrategy.h:137-141 | after the lifting walk every arc column has bounds [0, MaxDouble], as createLP gives it |
| RefineNeighborhood.RefinePair | include/RefineNeighborhoodStrategy.h:164-175 | the pair is added with its transport cost exactly when the new plan lacks its arc and its reduced cost is not positive; the old plan is not consulted |
| RefineNeighborhood.RefineRow | include/RefineNeighborhoodStrategy.h:160-177 | every reducing pair of one source neighbour with a target neighbour is an arc of the new plan afterwards |
| RefineNeighborhood.RefinePairs | include/RefineNeighborhoodStrategy.h:157-178 | every pair of the two balls whose reduced cost is not positive is an arc of the new plan afterwards |
| RefineNeighborhood.CopySeed | include/RefineNeighborhoodStrategy.h:142-144 | the seed is copied into the new plan unless it already has its arc |
| RefineNeighborhood.RefineSeed | include/RefineNeighborhoodStrategy.h:136-179 | an arc with positive weight is copied and the reducing pairs in its balls of radius (r(to) + r(from)) rFactor are added; other arcs add nothing |
| RefineNeighborhood.RefineWalk | include/RefineNeighborhoodStrategy.h:133-180 | the walk visits every arc of sol from the first to the end |
| RefineNeighborhood.Refine | include/RefineNeighborhoodStrategy.h:128-183 | the seeds are the arcs of sol with positive weight; every seed and every reducing pair in a seed's balls is an arc of the new plan, and every arc of it is one of these |
| RefineNeighborhood.ColumnStatuses | include/RefineNeighborhoodStrategy.h:77-90 | one status per arc of the new plan: BASIC for the column of each arc of sol that carries mass, LOWER otherwise |
| RefineNeighborhood.RowStatuses | include/RefineNeighborhoodStrategy.h:68-75 | the row statuses of the last solve, whole |
| RefineNeighborhood.Rebuild | include/RefineNeighborhoodStrategy.h:57-65 | the potentials from the last duals, a new plan over sol's levels, and refine from sol into it |
| RefineNeighborhood.Restart | include/RefineNeighborhoodStrategy.h:67-99 | the row and column bases are read, the time counters carried over, createLP builds the new plan's LP and setupBasis starts it from those statuses |
| RefineNeighborhood.Resume | include/RefineNeighborhoodStrategy.h:67-107 | Restart, then solveLP on the new plan's LP |
| RefineNeighborhood.RefineSolve | include/RefineNeighborhoodStrategy.h:57-107 | a pass up to solveLP: the new plan is refined, its LP created, started from the last statuses and solved; it still costs MaxDouble |
| RefineNeighborhood.StoreNew | include/RefineNeighborhoodStrategy.h:115 | storeLP on the new plan keeps its arcs' endpoints and sets the level nodes' potentials to the duals |
| RefineNeighborhood.SolveNeighborhoodLP | include/RefineNeighborhoodStrategy.h:45-121 | corrected: each pass refines, solves and stores the new plan; the loop stops once the stored cost improved on the previous plan's by no more than tol times it, or equals it, or nIterations passes have run; the result holds the last stored LP |
| RefineNeighborhood.NewPlanStalls | include/RefineNeighborhoodStrategy.h:106-113 | a new plan costing MaxDouble compared with itself passes the stopping test exactly when tol >= 0 |
| RefineNeighborhood.SolveNeighborhoodLPAsWritten | include/RefineNeighborhoodStrategy.h:45-121 | as written: the shadowing prevCost reads the new plan's unsolved cost, so with tol >= 0 the first pass breaks before storeLP and returns a plan whose weights were never stored |
| ExpandNeighborhood.TryPair | include/ExpandNeighborhoodStrategy.h:149-159 | the pair is recorded with its transport cost exactly when its arc is in neither sol nor the candidate plan and its reduced cost cost - pi(f2) + pi(t2) is not positive |
| ExpandNeighborhood.SearchRow | include/ExpandNeighborhoodStrategy.h:147-160 | every admitted pair of one source neighbour with a target neighbour is a candidate afterwards |
| ExpandNeighborhood.SearchPairs | include/ExpandNeighborhoodStrategy.h:144-161 | every admitted pair of the two neighbourhoods of a seed arc is a candidate afterwards |
| ExpandNeighborhood.SearchSeed | include/ExpandNeighborhoodStrategy.h:125-162 | an arc with positive weight is a seed and the neighbourhoods of its ends within (r(to) + r(from)) rFactor are searched; any other arc adds nothing |
| ExpandNeighborhood.Walk | include/ExpandNeighborhoodStrategy.h:122-163 | the walk over expand visits its arcs from the first to the end |
| ExpandNeighborhood.GetNeighborhoodArcs | include/ExpandNeighborhoodStrategy.h:117-165 | the seeds are the arcs of expand with positive weight; every admitted pair in a seed's balls is a candidate, and every candidate is such a pair recorded with its transport cost |
| ExpandNeighborhood.DenseCount | include/TransportPlan.h:258-260 | getNumberOfPaths of a dense plan counts its arcs |
| ExpandNeighborhood.MoveIn | include/ExpandNeighborhoodStrategy.h:181-189 | addPath of a candidate sol lacks, and its column filled |
| ExpandNeighborhood.MoveStep | include/ExpandNeighborhoodStrategy.h:178-191 | the current candidate goes into sol and its column, and is erased from the candidates |
| ExpandNeighborhood.AddColumns | include/ExpandNeighborhoodStrategy.h:169-194 | min(candidates, maxToAdd) columns are appended, then candidates from the cursor on move in order into sol and those columns until they run out or maxToAdd have moved; the count moved is returned |
| ExpandNeighborhood.Resolve | include/ExpandNeighborhoodStrategy.h:91-92 | solveLP, then the plan's cost is the objective value |
| ExpandNeighborhood.Batch | include/ExpandNeighborhoodStrategy.h:84-92 | addColumns, solveLP, and the objective becomes the cost |
| ExpandNeighborhood.Improve | include/ExpandNeighborhoodStrategy.h:77-99 | while candidates remain: remember the cost, move a batch, re-solve; stop early once the cost dropped by no more than tol times the remembered cost |
| ExpandNeighborhood.NothingFound | include/ExpandNeighborhoodStrategy.h:153-158 | a search that finds nothing leaves the plan settled around its seeds: every pair there is an arc or has positive reduced cost |
| ExpandNeighborhood.Prepare | include/ExpandNeighborhoodStrategy.h:67-71 | setPotentials from the last duals, then getNeighborhodArcs into a new plan over the same levels |
| ExpandNeighborhood.Grew | include/ExpandNeighborhoodStrategy.h:77-101 | a pass that moved a candidate leaves fewer grid pairs unused |
| ExpandNeighborhood.Stayed | include/ExpandNeighborhoodStrategy.h:72-101 | a pass whose search found nothing moves no arc, and the seeds are settled |
| ExpandNeighborhood.Search | include/ExpandNeighborhoodStrategy.h:66-73 | Prepare, the candidate count as outerAdded, and the candidate cursor at the start |
| ExpandNeighborhood.Finish | include/ExpandNeighborhoodStrategy.h:77-101 | the inner loop then storeLP: with candidates sol gains a new arc; without, sol keeps its arcs and the seeds are settled; storeLP leaves the duals as potentials |
| ExpandNeighborhood.Pass | include/ExpandNeighborhoodStrategy.h:61-101 | one pass: a pass that finds candidates adds at least one new arc; one that finds none leaves sol's arcs and settles the seeds |
| ExpandNeighborhood.SolveNeighborhoodLP | include/ExpandNeighborhoodStrategy.h:48-107 | passes run while the last found candidates and fewer than nIterations have run (unbounded when negative); sol keeps its arcs, at most nIterations passes run, and on convergence the last duals settle every pair around the positive-weight arcs of expand |
| PotentialNeighborhood.RcOrder | include/PotentialNeighborhoodStrategy.h:21-31 | entries compare by reduced cost alone: == ignores the arc, < is a strict order with > its converse, and exactly one of <, ==, > holds |
| PotentialNeighborhood.PotentialBounds | include/PotentialNeighborhoodStrategy.h:295-311 | a node on the stop scale keeps its bounds; any other node ends with the largest upper and least lower bound of its children, after they were given theirs; only nodes below it change |
| PotentialNeighborhood.Gather | include/PotentialNeighborhoodStrategy.h:299-309 | after resetPi, setPiMax and setPiMin over the children leave the node with the maximum of their upper bounds and the minimum of their lower bounds |
| PotentialNeighborhood.BoundAll | include/PotentialNeighborhoodStrategy.h:116-125 | potentialBounds on each node of a list leaves each with the bounds High and Low give over its subtree |
| PotentialNeighborhood.OfCovers | include/PotentialNeighborhoodStrategy.h:306-309 | the bounds gathered for a list of children cover those of each child |
| PotentialNeighborhood.Nesting | include/PotentialNeighborhoodStrategy.h:295-311 | the bounds nest: every stop-scale node below a node has its bounds, and so its potential, inside that node's bounds |
| PotentialNeighborhood.OfAttained | include/PotentialNeighborhoodStrategy.h:299-309 | a childless node keeps resetPi's empty bounds; otherwise each bound is -MaxDouble/MaxDouble or attained by one of its children |
| PotentialNeighborhood.Probe | include/PotentialNeighborhoodStrategy.h:137-181 | the search from one source node queues the target roots, keeps a node when d - (piMax(from) - piMin(to)) <= threshold * cost^p, expands kept nodes above the target scale and emits the kept target-scale nodes, in queue order |
| PotentialNeighborhood.Step | include/PotentialNeighborhoodStrategy.h:144-180 | one pass of the queue loop takes the head as the next step of the search and queues or emits as the test says |
| PotentialNeighborhood.ExpandCase | include/PotentialNeighborhoodStrategy.h:174-178 | a kept step above the target scale queues its children one scale down and emits nothing |
| PotentialNeighborhood.QuietCase | include/PotentialNeighborhoodStrategy.h:168-173 | any other step queues nothing; a kept target-scale step emits its arc with cost cost^p |
| PotentialNeighborhood.Start | include/PotentialNeighborhoodStrategy.h:139-142 | a new search queues the target roots at the root scale |
| PotentialNeighborhood.TreeExpand | include/PotentialNeighborhoodStrategy.h:174-178 | expanding a step keeps the search a tree and lowers its weight, so the queue loop ends |
| PotentialNeighborhood.ExpandWeight | include/PotentialNeighborhoodStrategy.h:174-178 | replacing a step by its children, one scale nearer the target, lowers the weight |
| PotentialNeighborhood.Scan | include/PotentialNeighborhoodStrategy.h:136-185 | a search from each source node in turn, entries appended to rcArcs, stopping after the first node that leaves more than nExpansionAdd entries |
| PotentialNeighborhood.SearchedAppend | include/PotentialNeighborhoodStrategy.h:136-185 | one more search, from the next source node, appends exactly its entries |
| PotentialNeighborhood.Potentials | include/PotentialNeighborhoodStrategy.h:112-113 | setPotentials gives every node of both levels its row's dual as potential and as both bounds |
| PotentialNeighborhood.BoundLevels | include/PotentialNeighborhoodStrategy.h:115-125 | potentialBounds on the target roots down to the target scale, then on the source roots down to the source scale |
| PotentialNeighborhood.BoundBelow | include/PotentialNeighborhoodStrategy.h:116-125 | every root ends with the bounds High and Low give over the level's nodes below it, whose bounds stay as they are |
| PotentialNeighborhood.EmitSound | include/PotentialNeighborhoodStrategy.h:166-172 | every entry of a search is an arc from its source node that passed the test |
| PotentialNeighborhood.EmitHas | include/PotentialNeighborhoodStrategy.h:168-173 | every kept target-scale step of a finished search has its entry among the search's entries |
| PotentialNeighborhood.EmitAllSound | include/PotentialNeighborhoodStrategy.h:136-185 | every entry of the scan is an arc from a searched source node that passed the test |
| PotentialNeighborhood.Listing | include/PotentialNeighborhoodStrategy.h:136-185 | every entry of the scan is an arc from a source node to a target node |
| PotentialNeighborhood.Collect | include/PotentialNeighborhoodStrategy.h:196-203 | addPath for each entry in order: the new plan gains exactly the listed arcs |
| PotentialNeighborhood.ListedStep | include/PotentialNeighborhoodStrategy.h:200-203 | one more entry lists one more arc |
| PotentialNeighborhood.Statuses | include/PotentialNeighborhoodStrategy.h:207-233 | an arc BASIC in the last solve is BASIC in the new plan, appended when missing; another arc is added with LOWER only when expandPotential holds and the new plan lacked it |
| PotentialNeighborhood.Carry | include/PotentialNeighborhoodStrategy.h:214-232 | one arc of the walk over sol carried over, or not, with its status |
| PotentialNeighborhood.Compose | include/PotentialNeighborhoodStrategy.h:196-246 | the new plan takes the listed arcs, then the arcs carried from sol with their statuses; the row statuses are read and the time counters copied |
| PotentialNeighborhood.Launch | include/PotentialNeighborhoodStrategy.h:257-258 | createLP for the new plan, then setupBasis from the given statuses |
| PotentialNeighborhood.Assemble | include/PotentialNeighborhoodStrategy.h:196-258 | Compose then Launch: the new plan of a pass and its warm-started LP |
| PotentialNeighborhood.Explore | include/PotentialNeighborhoodStrategy.h:98-185 | potentials and bounds, then the search from each source node up to the cut-off; each entry is an arc from a source node to a target node |
| PotentialNeighborhood.Settle | include/PotentialNeighborhoodStrategy.h:196-275 | the new plan and its LP, prevCost read from it, solveLP, the cost and storeLP, which sets the potentials to the duals |
| PotentialNeighborhood.Round | include/PotentialNeighborhoodStrategy.h:96-275 | one pass: Explore then Settle; prevCost is the new plan's initial MaxDouble |
| PotentialNeighborhood.SolveNeighborhoodLP | include/PotentialNeighborhoodStrategy.h:84-287 | corrected: passes run while nIterations is not exhausted, and stop after a solve with no simplex iterations or a pass improving the previous stored cost by no more than expansionTolerance times it |
| PotentialNeighborhood.SolveNeighborhoodLPAsWritten | include/PotentialNeighborhoodStrategy.h:84-287 | as written: prevCost is the new plan's MaxDouble, so the tolerance test stops only for a cost of at least (1 - tol) MaxDouble |
| PotentialNeighborhood.AsWrittenStall | include/PotentialNeighborhoodStrategy.h:264-283 | the test against MaxDouble holds exactly for costs of at least (1 - tol) MaxDouble; with tol = 0.01 a pass leaving the cost at 100 stops the corrected loop and not the loop as written |
| SinkhornPropagation.CandidatesSnoc | include/SinkhornPropagationStrategy.h:59-84 | the candidates of one more coarse arc are its child pairs appended, unless it is skipped |
| SinkhornPropagation.CandidatesFresh | include/SinkhornPropagationStrategy.h:71-82 | every candidate is a fresh path between a child of the arc's source and a child of its target |
| SinkhornPropagation.CandidateKeys | include/SinkhornPropagationStrategy.h:59-84 | the arcs of the candidates are exactly the child arcs of the coarse arcs that are not skipped |
| SinkhornPropagation.Support | include/SinkhornPropagationStrategy.h:56-84 | the new plan holds exactly the child pairs of the coarse arcs not skipped, each costing the transport cost of its own ends |
| SinkhornPropagation.NothingDroppedAtZero | include/SinkhornPropagationStrategy.h:38-39 | with the default threshold 0 no arc of non-negative weight is skipped |
| SinkhornPropagation.WalkStep | include/SinkhornPropagationStrategy.h:59-84 | one coarse arc of the walk adds its child pairs as the next candidates |
| SinkhornPropagation.Visit | include/SinkhornPropagationStrategy.h:59-84 | one coarse arc is skipped or all of its child pairs are added, then the cursor moves on |
| SinkhornPropagation.ThinArc | include/SinkhornPropagationStrategy.h:62-82 | the skip test (a left scaling exists and w < min(mass) threshold), then the child pairs unless skipped |
| SinkhornPropagation.Walk | include/SinkhornPropagationStrategy.h:59-84 | every coarse arc in increasing order is skipped or replaced by all of its child pairs |
| SinkhornPropagation.SinkhornPropagationStrategy.constructor | include/SinkhornPropagationStrategy.h:38-41 | the defaults lambda 50, tolerance 1e-6, threshold 0 and 100 iterations |
| SinkhornPropagation.SinkhornPropagationStrategy.Propagate | include/SinkhornPropagationStrategy.h:43-178 | a new plan whose arcs are the child pairs of the unskipped coarse arcs, the Sinkhorn problem over them, warm-started when the coarse plan has a left scaling, and the solver's plan, left scaling and distance stored |
| SinkhornPropagation.NewSupport | include/SinkhornPropagationStrategy.h:48-84 | the new plan with cost 0 and the walk over the coarse plan |
| SinkhornPropagation.SolveSupport | include/SinkhornPropagationStrategy.h:87-172 | mu, nu, K and U, the warm start, the solve and the stored result |
| SinkhornQueues.BelowThrough | include/MultiscaleSinkhornTransport.h:63-65 | the order of the (-w, path) entries is a strict weak order |
| SinkhornQueues.Top | include/MultiscaleSinkhornTransport.h:155 | top reads an entry no other entry is above |
| SinkhornQueues.Remove | include/MultiscaleSinkhornTransport.h:121-128 | pop removes exactly the entry at the given position |
| SinkhornQueues.PushKeeps | include/MultiscaleSinkhornTransport.h:120-128 | a push followed by the overflow pop keeps a queue within maxPathsPerNode |
| SinkhornQueues.Counted | include/MultiscaleSinkhornTransport.h:120-128 | kept and evicted entries together are the pushed entries |
| SinkhornQueues.EvictionOrdered | include/MultiscaleSinkhornTransport.h:121-128 | the entry evicted on overflow is no heavier than any kept one |
| SinkhornQueues.Heaviest | include/MultiscaleSinkhornTransport.h:117-128 | a queue keeps every entry when the bound is negative, otherwise min(pushes, max) entries, each at least as heavy as every evicted one |
| SinkhornQueues.Fills | include/MultiscaleSinkhornTransport.h:120-128 | filling a queue from empty keeps it bounded |
| SinkhornQueues.SortedStep | include/MultiscaleSinkhornTransport.h:111-132 | one more arc of the walk keeps every queue in order |
| SinkhornQueues.QueueStepAt | include/MultiscaleSinkhornTransport.h:117-128 | the queue of a node after one more arc |
| SinkhornQueues.EnteredSnoc | include/MultiscaleSinkhornTransport.h:111-132 | the entries offered to a node's queue grow by the arc when it is eligible and ends at that node |
| SinkhornQueues.EnteredHolds | include/MultiscaleSinkhornTransport.h:111-132 | the entries offered to a node's queue are the eligible arcs that end there |
| SinkhornQueues.RetainedAre | include/MultiscaleSinkhornTransport.h:111-132 | a retained arc moved more than threshold times its smaller end mass and is among the heaviest maxPathsPerNode entering its source's or its target's queue |
| SinkhornQueues.Popped | include/MultiscaleSinkhornTransport.h:153-156 | the order in which repeated top and pop drain a queue, a permutation of its entries |
| SinkhornQueues.TopFirst | include/MultiscaleSinkhornTransport.h:155-156 | the first popped entry is below none of those popped after it |
| SinkhornQueues.PoppedLightestFirst | include/MultiscaleSinkhornTransport.h:153-156 | draining pops lightest first: no earlier entry is below a later one |
| SinkhornSolve.KeysAppend | include/SinkhornPropagationStrategy.h:71-82 | the arcs of joined runs of paths are those of the parts |
| SinkhornSolve.PairRowIs | include/SinkhornPropagationStrategy.h:74-81 | one row of the child loop joins f2 to each child of the target, each path fresh |
| SinkhornSolve.PairsAre | include/SinkhornPropagationStrategy.h:71-82 | the child pairs are exactly the arcs from the source's children to the target's |
| SinkhornSolve.AddOne | include/SinkhornPropagationStrategy.h:78-80 | addPath of one path between nodes of the plan's levels |
| SinkhornSolve.AddPairRow | include/SinkhornPropagationStrategy.h:74-81 | the inner child loop adds Path(f2, t2) with its transport cost for every child t2 |
| SinkhornSolve.AddPairs | include/SinkhornPropagationStrategy.h:71-82 | the child loops add every child pair with its transport cost |
| SinkhornSolve.AddChildPairs | include/SinkhornPropagationStrategy.h:68-82 | the child loops for one coarse path |
| SinkhornSolve.InsertAllCosted | include/SinkhornPropagationStrategy.h:78-80 | addPath of fresh paths keeps every row costed and gives every new arc weight 0 |
| SinkhornSolve.GrownArcs | include/SinkhornPropagationStrategy.h:59-84 | the arcs of a plan grown from empty rows are exactly the keys of the paths added |
| SinkhornSolve.FillMasses | include/SinkhornPropagationStrategy.h:90-99 | entry id of the mass vector holds the mass of the node with that id |
| SinkhornSolve.DistinctTriplets | include/SinkhornPropagationStrategy.h:122-127 | setFromTriplets over distinct positions stores each value at its position and nothing else |
| SinkhornSolve.Kernels | include/SinkhornPropagationStrategy.h:106-128 | one K entry exp(-lambda d) and one U entry d exp(-lambda d) per arc, at its row and column |
| SinkhornSolve.TripletsSnoc | include/SinkhornPropagationStrategy.h:113-119 | one more arc extends the triplet lists by its two entries |
| SinkhornSolve.OnePerArc | include/SinkhornPropagationStrategy.h:111-127 | the triplets of an increasing walk give a matrix stored exactly at the plan's arcs |
| SinkhornSolve.KernelMatrices | include/SinkhornPropagationStrategy.h:106-128 | K and U have one entry per arc: no two triplets meet, so nothing is summed |
| SinkhornSolve.WarmStart | include/SinkhornPropagationStrategy.h:137-154 | each child of coarse node j gets scaling(j) divided by j's number of children |
| SinkhornSolve.SplitInto | include/SinkhornPropagationStrategy.h:146-150 | the inner loop sets each child's entry to s and changes no other |
| SinkhornSolve.SplitConserves | include/SinkhornPropagationStrategy.h:144-150 | the children's shares of a coarse scaling add up to it |
| SinkhornSolve.Evenly | include/SinkhornPropagationStrategy.h:144 | k equal parts of x add up to x |
| SinkhornSolve.CoefficientStep | include/SinkhornPropagationStrategy.h:163-169 | writing the current arc's coefficient extends the written arcs by it |
| SinkhornSolve.StorePlan | include/SinkhornPropagationStrategy.h:162-169 | every arc takes the solver plan's coefficient at its row and column as weight |
| SinkhornSolve.Prepare | include/SinkhornPropagationStrategy.h:87-128 | K and U from the triplets of the plan's arcs, and the two mass vectors |
| SinkhornSolve.Finish | include/SinkhornPropagationStrategy.h:156-172 | after the solve, every arc's weight is the solver plan's coefficient, the plan keeps the solver's left scaling and its cost is the solver's distance |
| MultiscaleSinkhorn.SinkhornParameters.constructor | include/MultiscaleSinkhornTransport.h:21-27 | the defaults lambda 50, 100 iterations, tolerance 1e-5, threshold 0, 10 paths per node |
| MultiscaleSinkhorn.QueueStep | include/MultiscaleSinkhornTransport.h:111-132 | one coarse arc is pushed on both its queues when eligible, then the cursor moves on |
| MultiscaleSinkhorn.Push | include/MultiscaleSinkhornTransport.h:115-130 | an arc that moved more than threshold times its smaller end mass goes on the queue of its source and of its target, each cut back to maxPathsPerNode |
| MultiscaleSinkhorn.QueueAll | include/MultiscaleSinkhornTransport.h:109-132 | every coarse arc in increasing order, each eligible one pushed on both its queues |
| MultiscaleSinkhorn.QueuedAll | include/MultiscaleSinkhornTransport.h:111-132 | at the end of the walk every coarse arc was visited |
| MultiscaleSinkhorn.SpawnFresh | include/MultiscaleSinkhornTransport.h:160-171 | the child pairs of popped arcs are fresh paths between children |
| MultiscaleSinkhorn.SpawnSnoc | include/MultiscaleSinkhornTransport.h:155-171 | one more popped arc appends its child pairs |
| MultiscaleSinkhorn.SpawnKeys | include/MultiscaleSinkhornTransport.h:155-171 | the arcs of the child pairs are the child arcs of the popped arcs |
| MultiscaleSinkhorn.PopOrder | include/MultiscaleSinkhornTransport.h:155-156 | taking the top out leaves the rest of the pop order |
| MultiscaleSinkhorn.Pop | include/MultiscaleSinkhornTransport.h:155-171 | top and pop of a queue, and the popped arc's child pairs added |
| MultiscaleSinkhorn.DrainStep | include/MultiscaleSinkhornTransport.h:153-172 | one top and pop of the drain with its child pairs |
| MultiscaleSinkhorn.DrainQueue | include/MultiscaleSinkhornTransport.h:153-172 | the drain adds the child pairs of every queued arc, lightest first |
| MultiscaleSinkhorn.SpawnAppend | include/MultiscaleSinkhornTransport.h:150-173 | the child pairs of joined runs are those of the parts in order |
| MultiscaleSinkhorn.DrainedStep | include/MultiscaleSinkhornTransport.h:150-173 | draining one more node's queue adds its entries to those popped |
| MultiscaleSinkhorn.DrainNext | include/MultiscaleSinkhornTransport.h:150-173 | the queue of one more node drained into the plan |
| MultiscaleSinkhorn.DrainAll | include/MultiscaleSinkhornTransport.h:150-173 | every queue of the map drained into the plan, one key at a time in an unspecified order: the plan ends with exactly the child pairs of the popped arcs |
| MultiscaleSinkhorn.QueuedParents | include/MultiscaleSinkhornTransport.h:117-130 | the queues hold coarse arcs whose ends have listed children |
| MultiscaleSinkhorn.OnSide | include/MultiscaleSinkhornTransport.h:150-198 | the entries popped on one side are those that side keeps |
| MultiscaleSinkhorn.FreshJoin | include/MultiscaleSinkhornTransport.h:150-198 | fresh child pairs stay fresh when the two drains are joined |
| MultiscaleSinkhorn.RetainedEither | include/MultiscaleSinkhornTransport.h:150-198 | a coarse arc is retained exactly when one of the two drains popped it |
| MultiscaleSinkhorn.SpawnKeysJoin | include/MultiscaleSinkhornTransport.h:150-198 | the arcs of both drains' child pairs are the child arcs of an arc popped by either |
| MultiscaleSinkhorn.TopKSupport | include/MultiscaleSinkhornTransport.h:107-200 | the new plan holds exactly the child pairs of the retained coarse arcs, each costing the transport cost of its ends |
| MultiscaleSinkhorn.CoarseSupport | include/MultiscaleSinkhornTransport.h:107-200 | the walk into the bounded queues, then the drain of every queue of both maps into the plan |
| MultiscaleSinkhorn.AsWrittenBranch | include/MultiscaleSinkhornTransport.h:87-92 | as written: the primary plan is read from prevSols before any test, and a holder's primary plan is never null, so the all-pairs branch is never taken and a missing holder is dereferenced |
| MultiscaleSinkhorn.BranchOf | include/MultiscaleSinkhornTransport.h:92-106 | corrected: all pairs without a previous holder, the top-k pairs with one |
| MultiscaleSinkhorn.FirstScaleDereferencesNull | include/MultiscaleSinkhornTransport.h:87-107 | the driver's first call passes no holder: as written it dereferences null where the intent adds all pairs; on later calls the two agree |
| MultiscaleSinkhorn.MultiscaleSinkhornTransport.constructor | include/MultiscaleSinkhornTransport.h:74-75 | the configuration is copied from params |
| MultiscaleSinkhorn.MultiscaleSinkhornTransport.SolveLP | include/MultiscaleSinkhornTransport.h:80-296 | a new plan whose arcs are all pairs without a previous holder and otherwise the child pairs of the retained coarse arcs; then the Sinkhorn problem, warm-started from a holder, and the solver's plan, left scaling and distance stored |
| MultiscaleSinkhorn.MultiscaleSinkhornTransport.SolveFrom | include/MultiscaleSinkhornTransport.h:206-292 | mu, nu, K and U, the warm start with a previous holder, the solve and the stored result |
| LinalgIO.LastSeparator | include/EigenLinalgIO.h:51 | find_last_of("/\\") gives -1 (npos) exactly when the name has no separator, and otherwise the index of its last separator |
| LinalgIO.ResolveLocalFile | include/EigenLinalgIO.h:51-56 | resolving the DataFile that the writer stored against the header path (directory prefix plus token) gives back the data file |
| LinalgIO.GetLineOf | include/EigenLinalgIO.h:36-37 | getline over a token followed by its delimiter reads exactly that token and leaves the rest |
| LinalgIO.ReadLine | include/EigenLinalgIO.h:31 | reading the first line of written text gives that line and the text after it |
| LinalgIO.ReadField | include/EigenLinalgIO.h:36-41 | reading a "Key: value" line as the readers do gives its value and the text after it |
| LinalgIO.KeysAvoidBlank | include/EigenLinalgIO.h:112-115 | the header keys contain no blank, so the first getline of a field stops right after the key |
| LinalgIO.WriteVectorHeader | include/EigenLinalgIO.h:88-118 | with writeHeader the header goes to filename.hdr and holds the magic line and the Size, ElementSize and DataFile fields; without it no header is written |
| LinalgIO.ReadVectorHeader | include/EigenLinalgIO.h:26-62 | a header without the DenseVector magic or with another element width is refused; otherwise the size and the resolved data file are returned |
| LinalgIO.ReadVectorLines | include/EigenLinalgIO.h:31-48 | reading the four header lines gives back their tokens, whatever the values |
| LinalgIO.VectorHeaderRoundTrip | include/EigenLinalgIO.h:26-62 | reading the header writeVector wrote, at the same element width, gives back the vector length and the original data file, for a length that fits in int |
| LinalgIO.VectorElementSizeRefused | include/EigenLinalgIO.h:42-45 | a vector header whose element width differs from the reader's is refused |
| LinalgIO.WriteMatrixHeader | include/EigenLinalgIO.h:203-234 | with writeHeader the header goes to filename.hdr and holds the magic line, "Size: m x n", ElementSize, "RowMajor: 0" and DataFile; without it no header is written |
| LinalgIO.ReadMatrixHeader | include/EigenLinalgIO.h:123-166 | a header without the DenseMatrix magic or with another element width is refused; otherwise the dimensions, the row-major flag and the resolved data file are returned |
| LinalgIO.ReadMatrixLines | include/EigenLinalgIO.h:133-152 | reading the field lines of a matrix header gives back their tokens |
| LinalgIO.MatrixHeaderRoundTrip | include/EigenLinalgIO.h:123-166 | reading the header writeMatrix wrote gives back the dimensions, a column-major flag and the original data file, for dimensions that fit in int |
| LinalgIO.MatrixElementSizeRefused | include/EigenLinalgIO.h:142-145 | a matrix header whose element width differs from the reader's is refused |
| Text.NatToString | include/EigenLinalgIO.h:113 | the decimal text operator<< writes for a natural number: digits only, no leading zero |
| Text.AtoiNatToString | include/EigenLinalgIO.h:38 | atoi reads back the natural number operator<< wrote, up to the largest int |
| Text.AtoiStopsAtNonDigit | include/EigenLinalgIO.h:135 | atoi over digits of a number up to the largest int, followed by other text, stops at the first non-digit |
| MetricRanges.FloorDivIsQuotient | include/itkPointSetToPointSetMetric2v4.hxx:335 | the truncating conversion of the non-negative quotient is the Euclidean quotient |
| MetricRanges.CreateRanges | include/itkPointSetToPointSetMetric2v4.hxx:323-342 | one range [0, nPoints) when the unit count exceeds the point count or threads are unavailable; otherwise nWorkUnits ranges tiling [0, nPoints) with interior boundaries floor(p nPoints / nWorkUnits) |
| MetricRanges.TilesPartition | include/itkPointSetToPointSetMetric2v4.hxx:331-339 | every point of [0, nPoints) lies in exactly one range |
| MetricRanges.OrderedEnds | include/itkPointSetToPointSetMetric2v4.hxx:331-339 | earlier ranges end before later ones start |

## Left out

- Interfaces: LPSolver.h, PropagationStrategy.h and NeighborhoodStrategy.h are abstract C++ interfaces, and the model has no interface types. `TransportSolver.TransportLPSolver` is built over the Lemon backend (`Lemon.LemonSolver`) only, so nothing here states what it does over MOSEK.
- The MOSEK backend (`Mosek.MosekSolver`) is modelled only for its status conversions, its column and row status-key vectors and the sizes of its task. Bounds, objective, coefficients and the optimiser live in the MOSEK library (`MSK_*` calls), which is not part of this model.
- MultiscaleLP.MultiscaleTransportLP.SolveLP: a strategy is a value naming its kind and constructor parameters. Running one is a function value the caller supplies: `Propagate`, `Refine` and `Combine` at multiscale_transport_lp.dfy:43-49. The dispatch contracts therefore speak of those functions only, and nothing ties them to the contracts proved in the strategy modules. Each strategy module is proved on its own.
- Multiscale.MultiscaleTransport.Solve: solveLP of the concrete driver is likewise a function parameter, together with the function that takes the primary plan out of its result.
- The network simplex of the lemon library is the function `simplex` fixed when a `Lemon.LemonSolver` is built. It maps the integer network to an outcome: optimality, one flow per arc and one potential per node.
- The iterations of SparseSinkhornTransport are an oracle. It maps the problem handed to it to the solver's plan entries, left scaling and first distance. SparseSinkhornTransport.h and SinkhornTransport.h are not part of this model.
- Floating point: masses, costs, potentials and scalings are exact reals, with no rounding, inf or NaN. The double to long long casts of `Lemon.LemonSolver.SolveLP` are truncation toward zero of the exact value.
- Geometry and numerics: `pow`, `exp` and `sqrt`, the nodes' transport cost and radii, and the levels' `getNeighborhood` are parameters or values fixed at construction.
- Randomness: the draws of the random generators are the parameters `uniform(i, a)` (iterated capacity) and `normal(i, a)` (randomized propagation).
- Clocks: the `clock()` readings and the elapsed times added to timeSolve, timePropagate and timeRefine are not modelled. The counters are copied where the source copies them.
- Memory: `new`/`delete` of plans, levels and solution holders are not modelled. Deleted plans are simply no longer used, and fresh plans are fresh objects.
- Streams: the binary payload and file streams of EigenLinalgIO, and the VERBOSE console output, are not modelled. Only header text and paths are.
- `TransportPlan::getMultiscaleTransportCost` (include/TransportPlan.h:266-320) is not modelled. It is a per-scale cost report that no solver calls.
- `TransportPlan::copyFrom` and the TransportNodeEqual/Less/Hash comparators are not modelled. They reference members that do not exist.
- `p != 0.0` is required by every member that ends in storeLP (`TransportSolver.TransportLPSolver.StoreLP` and the strategies' SolveNeighborhoodLP/Propagate), because storeLP computes pow(objective, 1/p). The source would divide by zero.
- Lemon.LemonSolver.SolveLP: requires `MaxCapacity(mass) > 0`, that is, some row bound is not 0. For an all-zero mass vector the source divides maxVal by 0 (include/LemonSolver.h:100-101) and then casts NaN to long long (line 122), which C++ leaves undefined. The model does not represent that outcome.
- TransportSolver.TransportLPSolver.SolveLP: the same `MaxCapacity > 0` requirement and the same undefined behaviour, passed through from the backend.
- DenseLP.TransportLP.Solve: the same `MaxCapacity > 0` requirement and the same undefined behaviour, for the dense LP.
- CapacityRounds.OutcomeWith: the same `MaxCapacity > 0` requirement, for the rounds of the iterated capacity strategy.
- StrategyLP.Weighted: some node of the source level has non-zero mass. The refine, expand, potential, iterated-capacity and neighbourhood strategies require it, because it is what makes the LP's maximum capacity positive. The degenerate all-zero case reaches the undefined Lemon behaviour above.
- TransportSolver.TransportLPSolver.CreateLP: requires `IdsArePositions`, that is, node i of each level has id i. Ids are assigned by the data object that builds the hierarchy, which is not part of this model. The source indexes LP rows by id and never checks this.
- Grid3d.Grid3dMinFlow.Solve: with scaleMass it requires both tensor totals to be non-zero (`Scalable`). The source computes v1/sum1 - v2/sum2 (include/Grid3dMinFlow.h:84), which is NaN for a zero total. It also requires positive maximum capacity, for the Lemon reason above.
- ExpandNeighborhood.SolveNeighborhoodLP: requires `maxToAdd >= 1`. With nExpansionAdd = 0 the source adds no column per batch, re-solves the unchanged LP and breaks on the tolerance test whenever tol·prevCost >= 0 (include/ExpandNeighborhoodStrategy.h:94-96). The model does not cover that case. With nRefinementIterations < 0, the outer loop of the source is bounded only by a pass that finds no candidate.
- ExpandNeighborhood.SolveNeighborhoodLP: requires `expand != sol`. The driver always passes the fresh combined plan of getCombinedPaths (include/MultiscaleTransportLP.h:114-115).
- MultiscaleLP.MultiscaleTransportLP.SolveLP: requires the propagation strategy that the size test selects to be set. The source dereferences it without a test (include/MultiscaleTransportLP.h:104-110) and crashes on NULL.
- Coupling.TransportCoupling.AlloacteMap: requires `size >= 0`. `std::vector::resize` of a negative int converts it to a huge size_t and throws.
- MaxEntropyPropagation.Share: when the children's mass products sum to 0 the share is 0. The source computes 0/0, which is NaN.
- Multiscale.MultiscaleTransport.Normalize: with scaleMass it requires positive leaf masses and a non-empty coarsest level, so that the total it divides by is positive. The source divides by whatever total it finds and yields inf or NaN masses. The as-written pass of the Findings makes that total 0.
- Multiscale.MultiscaleTransport.Solve: requires non-empty level lists and disjoint source and target hierarchies, plus the Normalize requirements under scaleMass. With matchStartLevel it requires every level to be non-empty (`Populated`), because getMeanRadius divides by the number of nodes.
- Multiscale.MultiscaleTransport.GetMeanRadius: requires a non-empty level. The source divides by n.size() (include/MultiscaleTransport.h:254-261).
- Multiscale.MultiscaleTransport.MatchStart: requires `Populated`, for the reason given under Solve.
- Multiscale.MultiscaleTransport.StartAt: requires `Populated`, for the reason given under Solve.
- RefineNeighborhood.SolveNeighborhoodLP: the source loop (include/RefineNeighborhoodStrategy.h:52) runs while the cost changes and the iteration count has not reached 0, so it has no bound when nRefinementIterations is negative. The model takes a `fuel: nat` argument and proves that at most `fuel` passes run. Its outcome clause therefore includes `passes == fuel`, and non-termination of the source for a negative count is not modelled.
- RefineNeighborhood.SolveNeighborhoodLPAsWritten: takes the same `fuel` argument, with the same gap.
- PotentialNeighborhood.SolveNeighborhoodLP: the pass loop (include/PotentialNeighborhoodStrategy.h:92) counts nRefinementIterations down to 0, so a negative count never runs out. The model bounds the passes by `fuel` the same way, with the same gap.
- PotentialNeighborhood.SolveNeighborhoodLPAsWritten: takes the same `fuel` argument, with the same gap.
- PotentialNeighborhood.BoundLevels: the bounds it promises on the target side, and the potentials it leaves, are stated only when the source and target hierarchies share no node (`UT !! US`). When a node belongs to both, the source pass may overwrite the target's bounds, and the model states nothing about it.
- IteratedCapacityPropagation.ComputeAlternateSolutions: states that the primary plan is none of the new alternatives (`sol !in rs`) rather than that every alternative is a freshly allocated plan.
- NeighborhoodStrategy.LocalNodeRadius: its ensures restate the two-case getter (own local radius without a parent, the parent's otherwise). That is the whole of getLocalNodeRadius.
- MetricRanges.CreateRanges: the boundary p·nPoints/nWorkUnits is computed in doubles and truncated. It equals the exact floor only while p·nPoints stays below 2^53, and the model uses the exact floor.
- MultiscaleSinkhorn.DrainAll: the source walks mpFrom and mpTo, both `std::map<TransportNode*, MassPathQueue>`, in pointer order (include/MultiscaleSinkhornTransport.h:67-68, 150, 175). The model drains the keys in an unspecified order, so the order of the child pairs and the numbering of the new plan's arcs are not modelled; only the set of arcs is stated.
- Nodes.TransportNode.GetAverageTransportCost: requires both nodes to have children. For a childless node the source divides 0 by 0 (include/TransportNode.h:106) and returns NaN, which the model does not represent.
- Text.Atoi: returns the exact value of the digits it reads. C's atoi returns an int, and a value beyond 2147483647 (`IntMax`) is undefined behaviour in C. The model does not represent that outcome.
- LinalgIO.ReadVectorHeader: reads Size and ElementSize with `Text.Atoi` (include/EigenLinalgIO.h:38, 42). A size written from Eigen's Index above `IntMax` therefore reads back exactly in the model, while the source's behaviour is undefined.
- LinalgIO.ReadMatrixHeader: reads m, n and ElementSize with `Text.Atoi` (include/EigenLinalgIO.h:135, 138, 142), with the same gap above `IntMax`.
- LinalgIO.VectorHeaderRoundTrip: stated only for a size and element width of at most `IntMax`, the values the source's int atoi can return. LinalgIO.MatrixHeaderRoundTrip is bounded the same way for rows, columns and element width.
- Levels.Level.GetMaximalRadius: the source calls `getRadius()` on each node (include/MultiscaleTransportLevel.h:56-57), and TransportNode declares no such member, only getNodeRadius and getLocalNodeRadius (include/TransportNode.h:77-78). Its only callers are commented out. The model reads the node radius.
- `TransportCoupling::AddPath` (include/itkTransportCoupling.hxx:50-56) is not modelled. It inserts a key-value pair into the `std::vector` of maps and names an undeclared `TransportPath`, so it does not compile.

## Findings

| source | as written | input that shows it | evidently intended | confidence | as-written member | corrected member |
|---|---|---|---|---|---|---|
| include/MultiscaleTransport.h:219-228 | the leaf case is commented out, so a childless node's mass becomes the empty sum 0 | any hierarchy: every leaf, then every node, ends with mass 0; with scaleMass the total divided by is 0 | a childless node keeps its own mass, and each parent gets the sum of its children's | not executed | Multiscale.SumPassAsWritten, Multiscale.AsWrittenMassesVanish | Multiscale.SumPass, Multiscale.MultiscaleTransport.Normalize |
| include/MultiscaleTransport.h:233-237 | `total = mass` in the loop over the coarsest level keeps the last root's mass only | two roots of masses 1 and 3: total 3, and the coarsest level sums to 4/3 after scaling | total is the sum of the root masses, so the coarsest level sums to 1 | not executed | Multiscale.RootTotalAsWritten, Multiscale.AssignedTotalShort, Multiscale.AssignedTotalMissesRoots | Multiscale.RootTotal, Multiscale.ScaleHierarchy |
| include/MaxEntropyPropagationStrategy.h:65-67 | `Path path(f2, t2)` shadows the coarse path, so `path.w` on the right of line 67 is the new path's 0 | any coarse arc with w > 0: all its child paths get weight 0 and the flow is lost | each child pair gets the coarse weight times m(f2)·m(t2)/sumw, conserving the coarse weight | not executed | MaxEntropyPropagation.AsWrittenDropsFlow | MaxEntropyPropagation.Propagate, MaxEntropyPropagation.BlockConserves |
| include/RefineNeighborhoodStrategy.h:106-113 | `double prevCost = sol->cost` shadows the outer prevCost and reads the new plan's unsolved cost MaxDouble, so the test compares MaxDouble with itself | any pass with tol >= 0: the loop breaks after the first solve, before storeLP, and returns a plan whose weights were never stored | the test compares the solved cost with the previous plan's stored cost, and storeLP runs on every pass | not executed | RefineNeighborhood.SolveNeighborhoodLPAsWritten, RefineNeighborhood.NewPlanStalls | RefineNeighborhood.SolveNeighborhoodLP |
| include/PotentialNeighborhoodStrategy.h:264-283 | prevCost is read from the new plan before its solve, so it is always MaxDouble | nRefinementIterations 3, tol 0.01, a pass that leaves the cost at 100, as the pass before it did: the test 1.8e308 - 100 <= 0.01 · 1.8e308 fails, so the loop does not stop | the improvement is measured against the cost of the plan the pass started from | not executed | PotentialNeighborhood.SolveNeighborhoodLPAsWritten, PotentialNeighborhood.AsWrittenStall | PotentialNeighborhood.SolveNeighborhoodLP |
| include/MultiscaleSinkhornTransport.h:87-92 | `prevSols->getPrimarySolution()` is called before any test, and the test is on the primary plan, which a holder never leaves null | the driver's first call passes prevSols = NULL (include/MultiscaleTransport.h:114): null is dereferenced | test prevSols itself and add all pairs when it is NULL | not executed | MultiscaleSinkhorn.AsWrittenBranch, MultiscaleSinkhorn.FirstScaleDereferencesNull | MultiscaleSinkhorn.MultiscaleSinkhornTransport.SolveLP, MultiscaleSinkhorn.BranchOf |
| include/NeighborhoodPropagationStrategy.h:203-218 | addColumns(toAdd.size()) counts repeated entries, but addPath gives a repeated arc its existing index, so one appended column per repeat is never filled | two coarse arcs whose expanded blocks share a child pair: that pair is queued twice, and one new column keeps row indices -1, an arc outside the graph the backend builds | one new column per new arc | not executed | NeighborhoodPropagation.AddQueuedAsWritten, NeighborhoodPropagation.SharedBlockRepeats, NeighborhoodPropagation.RepeatLeavesUnfilled | NeighborhoodPropagation.AddQueued |
| include/TransportLPSolver.h:465-479 | setupBasis writes arc i's status to backend column i, without the pathOffset that every other arc accessor adds | one arc with status BASIC: it lands on the first distribution column, and the arc column still reads LOWER | column statuses go to pathOffset + i, where getColumnStatus(i) reads them | not executed | TransportSolver.TransportLPSolver.SetupBasis, TransportSolver.BasisMissesArcColumns | TransportSolver.TransportLPSolver.SetupArcBasis |
