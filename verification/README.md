# Multi-agent simulations: ant sorting, cooperative transport, blocks world

This project models three small multi-agent simulations written in Python:

- `TP2.py`: the basic ant-colony sorter. Agents walk a grid of cells that holds objects of kinds A and B. Each agent remembers the last ten symbols it stood on. It picks up an object with probability `(kp / (kp + f))^2`, where `f` is how often the current symbol occurs in its memory. It drops a carried object on an empty cell with probability `(f / (km + f))^2`. The model includes the initial scattering of objects and agents.
- `TP2_version_2.py`: the cooperative-transport variant. Heavy objects C take two agents to move. An agent that reads C waits and lays a pheromone on the cells around it. The pheromone decays by one unit per turn. Another agent reading it may answer, link to the waiting agent and carry the C away with it, dragging its partner along.
- `TP1.py`: the blocks world. Four blocks sit on three columns. Each block perceives the block beneath it and then stays, pushes or moves to another column. The main loop stops after a pass in which every block is satisfied.

Modules:

| module | role |
|---|---|
| `Results` | `Result`/`Option`, and the exceptions the source raises as `Fault` values |
| `Seqs` | `list.remove` (`RemoveFirst`), slicing (`Take`), `list.index`, and counting facts |
| `Grids` | the board as a flat, row-major list of cells |
| `Walks` | the eight directions and the walk that draws them without replacement |
| `Response` | the pick-up and drop probabilities shared by both sorters |
| `Sorter`, `SorterLaws` | the basic sorter, and the invariant every step keeps |
| `Placement` | `__create_tiles` and `__add_to_board` |
| `Transport`, `Carrier`, `TransportLaws` | the board and pheromone side of the transport variant, its agent side, and its laws |
| `CarrierLaws` | the invariant every completed transport step keeps, with the objects of each kind it conserves |
| `Blocks`, `BlocksLaws` | the blocks world, and what its perception, actions and main loop amount to |

Modelling choices:

- A raised exception is an `Err(fault)` result.
- Every random draw is an input:
  - each `random()` comparison reads a real;
  - each `choice(directions)` walk reads a shuffle of the eight directions;
  - each `random.choice` over a list reads a natural number, which is reduced modulo the list's length.
- Python floats are exact reals.
- Agents and pheromones are identified by their index in the world's lists. `list_agents` is the position stored in each agent's record.
- `__add_to_board` deals agents onto the board after the objects, so an agent may start on a cell that holds an object (`Placement.PlaceEverything`).
- When a faded pheromone is refreshed, the old one is destroyed before a new one is laid (TP2_version_2.py:227-229, `TransportLaws.DecayFades`).

## Model

| member | source | states |
|---|---|---|
| Sorter.TileContent | TP2.py:61-71 | a cell reads as an error exactly when it holds both A and B, as '0' exactly when it holds no object, and as the kind of its single object otherwise |
| Sorter.Perceive | TP2.py:113-116 | the new memory starts with the symbol of the agent's cell, continues with the first nine entries of the old memory, and holds at most ten entries; only this agent changes |
| Sorter.Density | TP2.py:143-144 | the density times the memory's length is the number of entries equal to the head, so it lies in (0, 1] |
| Sorter.DensityFull | TP2.py:143-144 | the density is 1 exactly when every entry of the memory equals the head |
| Sorter.Confused | TP2.py:147 | the symbol counted as a mis-read is never the head itself: 'B' for 'A', and 'A' for 'B' and for '0' |
| Sorter.DensityWithError | TP2.py:146-148 | the density times the memory's length is the number of entries equal to the head plus those equal to its mis-read symbol; it lies in (0, 1] and is never below the plain density |
| Sorter.DensityWithErrorFull | TP2.py:146-148 | the density with error is 1 exactly when every entry is the head or its mis-read symbol |
| Sorter.LocalDensity | TP2.py:119 | the density `action` uses, plain or with error as the agent's mode says, lies in (0, 1] |
| Sorter.PickUp | TP2.py:84-86 | succeeds exactly when the head symbol names an object in the agent's cell; that object leaves the cell (one copy, as a multiset) and fills the backpack; nothing else changes |
| Sorter.Drop | TP2.py:88-90 | the carried object is appended to the agent's cell and the backpack empties; nothing else changes |
| Sorter.Move | TP2.py:73-82 | a step off the board changes nothing and answers false; a step on the board moves the agent to a different cell, and fails exactly when the agent is missing from its own cell |
| Sorter.Exchange | TP2.py:118-125 | an agent with an empty backpack and an object kind at the head picks up exactly when the first draw is below the pick-up chance; one carrying on a cell read as '0' drops exactly when the second draw is below the drop chance; otherwise nothing changes; it raises only when the pick-up finds no such object in the cell; position and memory never change |
| Sorter.RandomWalk | TP2.py:127-141 | a completed walk keeps the board's dimensions, the number of agents and the density mode |
| Sorter.Action | TP2.py:118-141 | an empty memory raises; a completed action keeps the board's dimensions, the number of agents and the density mode |
| Sorter.Tick | TP2.py:164-166 | a completed perceive-and-act keeps the board's dimensions, the number of agents and the density mode |
| Sorter.Run | TP2.py:163-166 | a completed run of the remaining turns keeps the board's dimensions, the number of agents and the density mode |
| Sorter.Step | TP2.py:163-166 | a completed step keeps the board's dimensions, the number of agents and the density mode |
| SorterLaws.WalkFromIsFirstFit | TP2.py:138-141 | the walk loop succeeds exactly when some drawn direction stays on the board, and then it is the single move in the first such direction |
| SorterLaws.RandomWalkMovesOnce | TP2.py:127-141 | the walk succeeds exactly when the board has more than one cell, and then moves the agent once, to a different cell, in the first drawn direction that stays on the board |
| SorterLaws.SparseCellReads | TP2.py:61-71 | a cell with at most one object never raises, and reads '0' exactly when it has no object |
| SorterLaws.PerceiveKeeps | TP2.py:113-116 | perceiving never fails on a consistent world, keeps every agent in its cell, every cell with at most one object and every memory within ten, and moves no object |
| SorterLaws.RelocateKeeps | TP2.py:77-81 | moving an agent to another cell keeps the invariant and the number of objects of each kind |
| SorterLaws.PickUpKeeps | TP2.py:84-86 | a pick-up keeps the invariant; each kind's count over cells and backpacks is unchanged |
| SorterLaws.DropKeeps | TP2.py:88-90 | a drop onto a cell with no object keeps the invariant and each kind's count |
| SorterLaws.ExchangeKeeps | TP2.py:119-125 | right after perceiving, the exchange never fails, keeps the invariant and each kind's count |
| SorterLaws.ActionKeeps | TP2.py:118-141 | right after perceiving, on a board of more than one cell, `action` never fails, keeps the invariant and each kind's count |
| SorterLaws.TickKeeps | TP2.py:163-166 | one agent's perceive-and-act keeps the invariant and conserves objects |
| SorterLaws.RunKeeps | TP2.py:163-166 | the remaining turns of a step keep the invariant and conserve objects |
| SorterLaws.StepKeeps | TP2.py:163-166 | a whole step never raises, never leaves two objects on a cell, keeps memories within ten entries, and conserves the objects of each kind |
| SorterLaws.ScatterSparse | TP2.py:25-30 | dealing objects and then agents onto an empty board leaves at most one object on every cell |
| Placement.CreateTilesCounts | TP2.py:48-56 | the tile list has `total` entries when the items fit, holds each item as often as the items do, and is padded with empty tiles |
| Placement.Deal | TP2.py:33-36 | drawing without replacement succeeds exactly when there are no more draws than tiles, and the tiles drawn are a sub-multiset of the pool |
| Placement.DealAll | TP2.py:33-36 | drawing as many times as there are tiles draws every tile exactly once |
| Placement.AddToBoard | TP2.py:32-40 | succeeds exactly when there are at least as many tiles as cells; cell `c` gains the item of the `c`-th tile drawn, if any, and nothing else |
| Placement.PlaceEverything | TP2.py:25-40 | with no more items than cells, every item is placed exactly as often as it occurs and each cell gains at most one |
| Response.ChancesMonotone | TP2.py:120-125 | a higher density never raises the pick-up chance and never lowers the drop chance |
| Response.SaturatedChances | TP2.py:121-124 | with density 1 the chances are (1/11)^2 and (10/13)^2 |
| Response.PickUpChance | TP2.py:121 | the pick-up chance lies in (0, 1], and is below 1 for a positive density |
| Response.DropChance | TP2.py:124 | the drop chance lies in [0, 1), and is positive for a positive density |
| Walks.WalkFindsMove | TP2.py:127-141 | some drawn direction stays on the board exactly when the board has more than one cell |
| Transport.ChebyshevMetric | TP2_version_2.py:16-17 | the distance is symmetric, and zero exactly between a position and itself |
| Transport.Chebyshev | TP2_version_2.py:16-17 | the distance bounds both coordinate gaps and equals one of them |
| Transport.TileContent | TP2_version_2.py:67-88 | raises exactly when two object kinds share the cell; otherwise the reading is the cell expanded element by element, in order, with the cell's symbol per element preceded by the pheromone itself for a pheromone; so there is one symbol entry per element and one entry per pheromone, and the first entry reflects the first element |
| Transport.ExpandSnoc | TP2_version_2.py:77-87 | the loop visits the cell in order: appending an element to the cell appends its pheromone, if it is one, and then the cell's symbol to the reading |
| Transport.ExpandAppend | TP2_version_2.py:77-87 | the reading of two cells' contents joined is the two readings joined |
| Transport.ExpandCounts | TP2_version_2.py:77-87 | the reading holds the cell's symbol once per element, each pheromone once per occurrence, nothing else, and starts with the first element's pheromone or with the symbol |
| CarrierLaws.WaitingHere | TP2_version_2.py:90-97 | on a world keeping the invariant, some agent in a cell waits exactly when some waiting agent's recorded position is that cell |
| Transport.MoveInDirection | TP2_version_2.py:99-108 | a step off the board changes nothing and answers false; otherwise it is a move to the target, which fails exactly when the agent is missing from its cell |
| Transport.MoveTo | TP2_version_2.py:110-115 | the agent's first occurrence leaves its cell and it is appended to the target; only its position changes |
| Transport.PickUp | TP2_version_2.py:117-119 | succeeds exactly when the head symbol's object lies in the cell; that object leaves the cell for the backpack |
| Transport.Drop | TP2_version_2.py:121-123 | the carried object is appended to the agent's cell and the backpack empties |
| Transport.SpreadShape | TP2_version_2.py:125-134 | a pheromone covers exactly the cells of the board at distance one or two, each once, at most 24 |
| Transport.Emit | TP2_version_2.py:125-157 | a fresh pheromone of strength 100, owned by the agent, is recorded and appended to exactly the cells it covers |
| Transport.EmitCovers | TP2_version_2.py:150-157 | a fresh pheromone lies on every cell it covers |
| Transport.Destroy | TP2_version_2.py:159-161 | succeeds exactly when the pheromone lies on every cell it covers, and then removes one copy from each of them only |
| Transport.EmitThenDestroy | TP2_version_2.py:150-161 | laying a pheromone and destroying it at once restores the board |
| Carrier.Perceive | TP2_version_2.py:177-180 | raises exactly when the cell raises; otherwise the memory becomes the first 25 entries of the cell's reading followed by the old memory |
| TransportLaws.PerceiveBounded | TP2_version_2.py:177-180 | the memory holds at most 25 entries, its exact length follows from the cell's reading, and on an occupied cell its head is a pheromone exactly when the cell's first element is one |
| TransportLaws.AttractionRange | TP2_version_2.py:200 | at distance 1 or 2 from the owner and for a strength of at most 100, the pull test passes exactly at distance 2 with strength at least 75 |
| CarrierLaws.AnswerRange | TP2_version_2.py:200 | in a world keeping the invariant, where no pheromone is stronger than 100, the pull test on a pheromone at distance 1 or 2 from its owner passes exactly at distance 2 with strength at least 75 |
| TransportLaws.AnswerRule | TP2_version_2.py:193-208 | a free agent on a pheromone raises at distance 0, links when the pull test passes and walks otherwise; a carrier walks on; any other agent stays |
| TransportLaws.LinkSucceeds | TP2_version_2.py:201-204 | answering succeeds exactly when the pheromone still lies on all its cells and the agent is in its own cell |
| TransportLaws.LinkLands | TP2_version_2.py:201-204 | after answering, the agent stands on its partner's cell and the pheromone has left each of its cells once |
| Carrier.Link | TP2_version_2.py:201-204 | after answering, the agent is linked to the owner and stands on its cell, and the owner's pheromone reference is cleared |
| TransportLaws.WaitBegins | TP2_version_2.py:211-220 | a free agent reading C where no one waits starts waiting and lays a new pheromone around itself, already weakened by one |
| TransportLaws.WaitDecays | TP2_version_2.py:219-220 | while its pheromone is above strength 1, a waiting agent's action only weakens that pheromone by one |
| TransportLaws.WaitEnds | TP2_version_2.py:219-229 | when the pheromone's last unit goes, the agent either gives up and steps away without a pheromone, or lays a fresh one of full strength |
| TransportLaws.DecayFades | TP2_version_2.py:219-229 | the fading pheromone is destroyed, which succeeds exactly when it still lies on all its cells, and the coin then chooses between giving up and calling again |
| TransportLaws.LiftAndCarry | TP2_version_2.py:231-237 | a linked agent with an empty backpack lifts the C and walks twice with its partner; its record changes only by the backpack and position |
| TransportLaws.ReleaseOnDrop | TP2_version_2.py:244-250 | a carrier of C on an empty cell that drops it ends empty-handed and unlinked, and its partner no longer waits; nothing else about either changes but their positions |
| TransportLaws.KeepsC | TP2_version_2.py:244-250 | a carrier of C on an empty cell that does not drop it only walks on, with its partner in tow |
| Carrier.Release | TP2_version_2.py:246-250 | dropping without a partner raises; otherwise the link is cleared and the partner stops waiting |
| TransportLaws.WalkAlone | TP2_version_2.py:259-277 | a walk without a partner in tow moves only this agent, in the first drawn direction that stays on the board |
| TransportLaws.WalkAloneNeighbour | TP2_version_2.py:259-274 | such a walk ends one cell away, with only the position changed |
| TransportLaws.WalkDrags | TP2_version_2.py:259-277 | a linked carrier of C drags its partner in the same direction when that keeps the partner on the board, and leaves it in place otherwise |
| Carrier.CallForHelp | TP2_version_2.py:214-215 | the agent waits and owns a new pheromone of strength 100, recorded after the existing ones and appended to exactly the cells it covers; nothing else changes |
| Carrier.Answer | TP2_version_2.py:196-206 | a completed answer keeps the board's dimensions and the number of agents and leaves the agent's backpack as it was; the branches are stated by TransportLaws.AnswerRule |
| Carrier.OnScent | TP2_version_2.py:193-208 | a completed pheromone branch keeps the board's dimensions and the number of agents; its effect on the invariant is CarrierLaws.OnScentKeeps |
| Carrier.OnLight | TP2_version_2.py:184-191 | a completed A/B branch keeps the board's dimensions and the number of agents; its effect on the invariant is CarrierLaws.OnLightKeeps |
| Carrier.Settle | TP2_version_2.py:212-217 | a completed first C step keeps the board's dimensions, the number of agents and the agent's memory; TransportLaws.WaitBegins states the call for help |
| Carrier.Decay | TP2_version_2.py:219-229 | a completed decay step keeps the board's dimensions, the number of agents and the agent's memory; TransportLaws.WaitDecays, WaitEnds and DecayFades state its branches |
| Carrier.Lift | TP2_version_2.py:231-234 | a completed lift keeps the board's dimensions and the number of agents; TransportLaws.LiftAndCarry states its effect |
| Carrier.OnHeavy | TP2_version_2.py:210-237 | a completed C branch keeps the board's dimensions and the number of agents; its effect on the invariant is CarrierLaws.OnHeavyKeeps |
| Carrier.OnBare | TP2_version_2.py:239-254 | a completed '0' branch keeps the board's dimensions and the number of agents; TransportLaws.ReleaseOnDrop and KeepsC state the C carrier's cases |
| Carrier.RandomWalk | TP2_version_2.py:259-277 | a completed walk changes nothing but agents' positions and leaves the pheromones as they were |
| Carrier.Density | TP2_version_2.py:256-257 | the density times the memory's length is the number of entries equal to the head, so it lies in (0, 1] |
| Carrier.DensityFull | TP2_version_2.py:256-257 | the density is 1 exactly when every entry of the memory equals the head |
| Carrier.Action | TP2_version_2.py:182-254 | an empty memory raises; a completed action keeps the board's dimensions and the number of agents, and drops no pheromone record |
| Carrier.Tick | TP2_version_2.py:299-301 | a completed perceive-and-act keeps the board's dimensions and the number of agents, and drops no pheromone record |
| Carrier.Run | TP2_version_2.py:298-301 | a completed run of the remaining turns keeps the board's dimensions and the number of agents |
| Carrier.Step | TP2_version_2.py:298-301 | a completed step keeps the board's dimensions and the number of agents |
| CarrierLaws.PerceiveKeeps | TP2_version_2.py:177-180 | on a world keeping the invariant (each agent once in its own cell, no cell with two object kinds, memories within 25 entries, no pheromone above 100), perceiving never raises, keeps the invariant and every object, and reads '0' only on a cell without objects |
| CarrierLaws.MoveToKeeps | TP2_version_2.py:110-115 | moving an agent keeps the invariant and the objects of each kind on the board and in backpacks |
| CarrierLaws.MoveInDirectionKeeps | TP2_version_2.py:99-108 | a step in one of the eight directions keeps the invariant and every object |
| CarrierLaws.RandomWalkKeeps | TP2_version_2.py:259-277 | a completed walk, dragging a partner or not, keeps the invariant and every object |
| CarrierLaws.PickUpKeeps | TP2_version_2.py:117-119 | a pick-up, when it succeeds, by an agent with an empty backpack whose memory's head names an object keeps the invariant; each kind's count over cells and backpacks is unchanged |
| CarrierLaws.DropKeeps | TP2_version_2.py:121-123 | a drop onto a cell with no object keeps the invariant and each kind's count |
| CarrierLaws.CallForHelpKeeps | TP2_version_2.py:213-215 | starting to wait and laying a fresh pheromone keeps the invariant and every object |
| CarrierLaws.DestroyKeeps | TP2_version_2.py:159-161 | destroying a pheromone, when it succeeds, keeps the invariant and every object |
| CarrierLaws.LinkKeeps | TP2_version_2.py:201-204 | answering a pheromone of another agent, when it succeeds, keeps the invariant and every object |
| CarrierLaws.OnLightKeeps | TP2_version_2.py:184-191 | the branch for a head of A or B keeps the invariant and every object |
| CarrierLaws.OnScentKeeps | TP2_version_2.py:193-208 | the branch for a pheromone head keeps the invariant and every object |
| CarrierLaws.OnHeavyKeeps | TP2_version_2.py:210-237 | the branch for a head of C, with its waiting, decay, lift and carry, keeps the invariant and every object |
| CarrierLaws.ReleaseKeeps | TP2_version_2.py:246-250 | releasing the partner after dropping a C keeps the invariant and every object |
| CarrierLaws.OnBareKeeps | TP2_version_2.py:239-254 | the branch for a head of '0', on a cell without objects, keeps the invariant and every object |
| CarrierLaws.ActionKeeps | TP2_version_2.py:182-254 | right after perceiving, a completed `action` keeps the invariant and every object |
| CarrierLaws.TickKeeps | TP2_version_2.py:299-301 | perceiving never raises on a world keeping the invariant, and a completed perceive-and-act keeps it and every object |
| CarrierLaws.RunKeeps | TP2_version_2.py:298-301 | the remaining turns of a step, when they complete, keep the invariant and every object |
| CarrierLaws.StepKeeps | TP2_version_2.py:298-301 | a completed step leaves every agent once in its own cell, no cell with two object kinds, memories within 25 entries and no pheromone above 100, and as many objects of each kind on the board and in backpacks as before |
| Carrier.ChanceToDrop | TP2_version_2.py:279-284 | a drop happens exactly when something is carried, the head is '0' and the draw is below the drop chance |
| Carrier.ChanceToPickUp | TP2_version_2.py:286-291 | a pick-up happens exactly when the head is A, or B with an empty backpack, and the draw is below the pick-up chance |
| Blocks.Initial | TP1.py:5-9 | the starting board holds B, D, A, C on the first column and has every flag cleared |
| Blocks.Move | TP1.py:11-15 | moving to column `x` succeeds exactly when `x` exists, and puts the block on top of `x` |
| Blocks.MoveTop | TP1.py:11-15 | moving the top block of column `k` to column `x` takes it off `k` and stacks it on `x`; the four blocks remain, each once |
| Blocks.Push | TP1.py:17-18 | only the block's own `pushing` flag is raised |
| Blocks.FindUnder | TP1.py:20-26 | a block found beneath `nm` stands directly below `nm` in some column |
| BlocksLaws.FindUnderAt | TP1.py:20-26 | on a well-formed board, the block found beneath is the real neighbour below, or none at the bottom |
| Blocks.Column | TP1.py:34-37 | the first column topped by the block, or none when no column is |
| Blocks.CanMove | TP1.py:28-32 | true exactly when some column is topped by the block |
| Blocks.TopIsUnique | TP1.py:28-37 | on a well-formed board, only the column the block tops has it on top |
| Blocks.GoalUnder | TP1.py:61-66 | only D has no block to stand on |
| Blocks.Perceive | TP1.py:60-76 | only this block's `satisfied` and `free` flags change: satisfied exactly when content, free exactly when movable |
| BlocksLaws.PerceiveAt | TP1.py:60-76 | satisfied exactly when it is D on the floor or on its goal block that is not pushing; free exactly when on top |
| Blocks.Others | TP1.py:51 | the column choices are exactly the columns other than the block's own, at least two of them |
| Blocks.Action | TP1.py:48-58 | a satisfied block changes nothing; an unsatisfied block that is not free only pushes; a moved block stops pushing |
| BlocksLaws.TurnContent | TP1.py:48-58 | a content block's turn changes nothing but its own flags |
| BlocksLaws.TurnPushes | TP1.py:55-57 | an unsatisfied block under another block raises its `pushing` flag and moves nothing |
| BlocksLaws.TurnMoves | TP1.py:50-54 | an unsatisfied top block leaves its column for one of the two others and stops pushing; the third column is untouched |
| Blocks.Turn | TP1.py:95-96 | after a turn the block is satisfied exactly when it was content before it; a content block changes only its own flags; a block neither content nor movable only pushes |
| Blocks.TurnKeeps | TP1.py:95-96 | every turn on a well-formed board succeeds and keeps the board well formed |
| BlocksLaws.GoalExactly | TP1.py:61-74 | every block is content exactly when the board is the tower D, C, B, A and none of B, C, D is pushing |
| BlocksLaws.PassReportsStill | TP1.py:92-97 | a pass reporting all satisfied moved no block and raised no `pushing` flag |
| BlocksLaws.PassSettled | TP1.py:92-97 | on a board where every block is content, a pass moves nothing and reports all satisfied |
| Blocks.Pass | TP1.py:92-97 | the rest of a pass leaves a well-formed board well formed |
| Blocks.Sweep | TP1.py:89-97 | a pass of the main loop leaves a well-formed board well formed |
| BlocksLaws.SweepStops | TP1.py:89-97 | the loop stops after a pass exactly when the board it started from is the goal tower with none of B, C, D pushing, and the tower then still stands |

## Left out

- `GUI.py` and the drawing calls: display only.
- The `main` functions are left out: argument parsing, printing, `time.sleep` and the endless `run` loops. The model covers one `step` of each sorter and one pass of the blocks world's loop. Whether that loop ever terminates depends on the random draws and is not modelled.
- `__str__` and `__repr__`: text output only.
- `error_rate` is declared in both sorter files but never used.
- Floating point is modelled as exact reals, so rounding in `kp / (kp + f)` and `f / (km + f)` is not modelled.
- Randomness is modelled as input draws, so the distributions of `random()` and `choice` are not modelled.
- Seqs.RemoveFirst: total. Removing a missing element returns the list unchanged, whereas `list.remove` raises. Every caller first checks membership and returns the raise as an `Err`.
- Sorter.PickUp: requires a non-empty memory. The caller reads `memory[0]` first, which raises on an empty list, and `action` models that raise as `Err(EmptyMemory)`.
- Sorter.Drop, Transport.Drop: require a full backpack. The source only drops after checking it.
- SorterLaws.ActionKeeps, SorterLaws.StepKeeps: require a board of more than one cell. On a 1x1 board the walk runs out of directions and `choice` raises; `Walks.WalkFindsMove` states when that happens.
- Placement: a board with more items than cells leaves the excess tiles in the pool, as in the source; `Placement.AddToBoard` then still succeeds.
- The agent table `list_agents` is not a separate dictionary. Each agent carries its position, and `Placement.AddToBoard` returns the drawn tiles, which record where each agent was placed.
- Blocks.Move: when a block that is not on top is moved, it is added to the target column without being taken off its old one. This is what the source does; the source never calls `move` on such a block.
- Blocks: block identity is by name, as `Block.__eq__` compares names. The three flags of each block are kept as sets of names.
- Transport: the agent's `position` field, a copy that `perceive` makes of its table entry, is not kept separately. The model reads the agent's recorded position, which equals that copy wherever `action` reads it.
- CarrierLaws.TickKeeps, CarrierLaws.RunKeeps, CarrierLaws.StepKeeps: they promise the invariant and the object counts only for turns that complete. Unlike the basic sorter, a transport `action` has raising paths. The pull test divides by a distance of zero when the pheromone's owner stands on the answering agent's cell. Destroying a pheromone fails, as `list.remove` does, when it no longer lies on all its cells. Releasing after a drop of C fails without a partner. The invariant does not track where pheromones lie or who is linked to whom, so freedom from these failures is not proved.
- CarrierLaws: the invariant leaves out the links between agents (that a linked pair points at each other, or that a waiting agent owns a live pheromone). The source does not keep these consistent in every interleaving, and the object counts do not depend on them.
- CarrierLaws.AnswerRange: it takes the distance between the reader and the pheromone's owner to be 1 or 2; the invariant does not bound it. In the source this holds because a pheromone covers only cells one or two away from its owner, and an owner with a live pheromone waits and is neither walked nor dragged.
