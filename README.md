# Ant sorting with cooperative helpers, modelled in Dafny

The system is a grid simulation of ant-like agents that sort fruit.
Agents walk on a square grid, remember the keys of the fruit they
observed, and pick up or put down fruit with probabilities driven by how
often they saw that key lately: an agent is likely to take a fruit it
rarely saw and to drop one it often saw, so fruit of one key end up in
clusters. In the cooperative version the key `C` is heavy. A helper agent
that wants a heavy fruit recruits another helper standing next to the fruit,
and the two move together. A helper that finds no partner leaves a signal
on the cells up to three steps around it. The signal fades by 0.1 per
tick, and free helpers climb towards the strongest signal.

The model has these parts:

- Fruit construction and the colour table (`Fruits`).
- An agent's memory, frequency and pick-up/release rates (`Agents`).
- The neighbourhood generators of the environment (`Neighborhoods`).
- The occupancy grid and its invariants (`Worlds`, `Environments`).
- The plain forager's act (`Foraging`).
- The helper's act and its rates (`Helping`, `Conduct`, `Cooperation`).
- The signal grid: decay, deposit, shuffle, sort and scan (`Signals`).
- The complex environment as a class (`ComplexEnvironments`).
- One tick of the animation loop (`Ticks`).
- A defect in the helper's release (`Findings`).

The environments are classes whose fields the methods update in place:
`Environment` holds `n`, `m`, `grid`, `agents` and `fruits`, and
`ComplexEnvironment` holds a base `Environment` and the `signal` grid. Each
class reads back as a value (`State()`). The acts, the tick and the
scattering of new items are proved to leave exactly the state a pure
function describes. For the scattering that function is `Generated`, which
plays the rounds of `generate_item` one after the other. The update, which
the source aborts by a failed assertion when two things share a cell, is
proved to succeed exactly when nothing does, and then to leave exactly the
grid `Occupancy` describes. The properties are then proved about those
functions. The main ones are:

- nothing ever shares a cell (`Separate`);
- the grid lists exactly the agents and the uncarried fruit (`Consistent`);
- no agent is its own helper, and every helper carrying heavy fruit has a helper (`Coupled`);
- signals stay in [0, 1];
- a free helper moves to the strongest empty signal;
- the memory is a FIFO window of the last 100 observations.

Randomness comes in as parameters. A `Draws` value carries, for one act, the
following draws, each named after the Python call it stands for:

- the `random.choice` of the observed fruit and of the step;
- one `random.random()` per fruit considered for pick-up, and one for the release;
- the swaps of `random.shuffle`.

A coordinate list `picks` stands for the `random.randint` pairs of
`generate_item`. The agent objects and fruit objects are values kept in the
environment's sequences. A reference between them (`agent.fruit`,
`agent.helper`, an agent stored in a grid cell) is an index into those
sequences.

## Model

| member | source | states |
|---|---|---|
| Fruits.Colour | python/fruit.py:2 | keys A, B, C map to colours 2, 3, 4 and every other key to 0 |
| Fruits.NewFruit | python/fruit.py:3-8 | a new fruit sits at (x, y) with its key, the colour of its key, and is not carried |
| Agents.NewAgent | python/agent.py:8-14 | a new agent (or helper, python/version2.py:21-23) of the given role stands at (x, y) with empty memory, no fruit, no helper, not helping, colour 3 |
| Agents.Matches | python/agent.py:21-24 | the count of entries equal to the key is the number of times that key occurs in the memory |
| Agents.Mismatches | python/agent.py:21-26 | the count of other keys is the memory length less the entries equal to the key and the `0` entries |
| Agents.CountsBounded | python/agent.py:21-26 | the entries equal to the key and the entries that are another key together are at most the memory length |
| Agents.Frequency | python/agent.py:16-27 | the frequency is in [0, 1], and 0 for an empty memory |
| Agents.FrequencyOfUniformMemory | python/agent.py:19-27 | a non-empty memory made only of the key has frequency exactly 1 |
| Agents.MatchesOfUniform | python/agent.py:22-24 | every entry of a memory made only of the key is counted as a match |
| Agents.CountsAfterOverwrite | python/agent.py:21-26 | overwriting one entry with the key adds one match unless it already was one, and removes one mismatch exactly when it was another key |
| Agents.FrequencyMonotone | python/agent.py:16-27 | turning one memory entry into the key never lowers that key's frequency |
| Agents.GetFrequency | python/agent.py:16-27 | the counting loop returns exactly the frequency of the key |
| Agents.CarryRate | python/agent.py:31 | the pick-up rate (0.1/(0.1+f))^2 lies in (0, 1], is 1 exactly at frequency 0 and below 1 for any positive frequency |
| Agents.ReleaseRate | python/agent.py:35 | the release rate (f/(0.3+f))^2 lies in [0, 1), is 0 exactly at frequency 0 and positive for any positive frequency |
| Agents.CarryRateFalls | python/agent.py:31 | the pick-up rate never rises when the frequency rises |
| Agents.ReleaseRateRises | python/agent.py:35 | the release rate never falls when the frequency rises |
| Agents.DecideCarry | python/agent.py:29-31 | `will_carry` answers true exactly when the draw is below the pick-up rate of the key's frequency |
| Agents.DecideRelease | python/agent.py:33-35 | `will_release` answers true exactly when the draw is below the release rate of the carried key's frequency |
| Agents.EmptyMemoryDecisions | python/agent.py:19-20 | with an empty memory every draw in [0, 1) picks up and no draw releases |
| Agents.Remember | python/agent.py:44-47 | the new memory ends with the observation, is preceded by a suffix of the old memory, grows by one below 100 entries and stays at 100 otherwise |
| Agents.UpdateMemory | python/agent.py:44-47 | the pop-then-append loop leaves exactly the memory `Remember` describes |
| Agents.Last | python/agent.py:44-47 | the window of the last k entries has length min(len, k) and is a suffix |
| Agents.MemoryKeepsMostRecent | python/agent.py:44-47 | after any run of observations the memory is exactly the 100 most recent entries of old memory plus observations, oldest first |
| Agents.RememberAll | python/agent.py:44-47 | a run of memory updates never grows a memory past 100 entries and ends with the latest observation |
| Agents.RememberIsLast | python/agent.py:44-47 | one memory update keeps exactly the last 100 entries of the memory followed by the observation |
| Neighborhoods.Column | python/environment.py:78-80 | the inner `dy` loop yields exactly the admitted cells of one column from `dy` up, in ascending y, at most r+1-dy of them |
| Neighborhoods.Columns | python/environment.py:77-80 | the outer `dx` loop yields exactly the admitted cells of the columns from `dx` on, in scan order, and counts at most one cell less than the full square |
| Neighborhoods.Neighbors | python/environment.py:76-80 | `get_neighbors` yields exactly the cells (x', y') other than the centre within Chebyshev distance r with 0 <= x' < n and 0 <= y' < m, in dx-then-dy order, without repeats, at most (2r+1)^2-1 of them (counted with the linear product `Times`) |
| Neighborhoods.NeighborsOnSquareGrid | python/environment.py:79 | on a square grid every neighbour can index the grid |
| Neighborhoods.EmptyAmong | python/environment.py:83-85 | keeps exactly the listed cells whose grid cell is empty, in the same order |
| Neighborhoods.EmptyNeighbors | python/environment.py:82-85 | `get_empty_neighbors` yields exactly the radius-1 neighbours whose cell is empty, in neighbour order |
| Neighborhoods.FruitsNear | python/environment.py:88-90 | from index `from` on, exactly the uncarried fruit within one step in each axis, in list order |
| Neighborhoods.FruitNeighbors | python/environment.py:87-90 | `get_fruit_neighbors` yields exactly the uncarried fruit within one step in each axis (the fruit under the agent included), in list order |
| Worlds.FindAgent | python/environment.py:48-49 | finds the first agent standing on a cell, and finds none exactly when no agent stands there |
| Worlds.FindFruit | python/environment.py:50-51 | finds an uncarried fruit lying on a cell, and finds none exactly when no uncarried fruit lies there |
| Worlds.Blank | python/environment.py:16 | a fresh grid has n rows of m cells, all `0` (also python/environment.py:47) |
| Worlds.CellFor | python/environment.py:46-60 | a cell `update` writes holds the first agent standing there; else the key of an uncarried fruit lying there, with no agent there; and it is `0` exactly when no agent and no uncarried fruit is there |
| Worlds.Occupancy | python/environment.py:46-60 | `update` builds a grid of n rows of m cells |
| Worlds.EmptyCell | python/environment.py:46-60 | on a grid `update` built, a cell is `0` exactly when no agent and no uncarried fruit is on it |
| Worlds.ConsistentEmptyMeansFree | python/environment.py:46-60 | on a grid `update` built, every `0` cell is free of agents and uncarried fruit |
| Worlds.AgentCellNamesAgent | python/environment.py:53-55 | on a grid `update` built, a cell holding agent j is where agent j stands |
| Worlds.CellsOfSeparate | python/environment.py:46-60 | when nothing shares a cell, each agent's cell holds that agent and each uncarried fruit's cell holds its key |
| Worlds.PlaceAgent | python/environment.py:54 | moving one agent to a cell free of other agents and of uncarried fruit keeps the assertions of `update` satisfiable |
| Worlds.PlaceFruit | python/environment.py:59 | replacing a fruit by a carried one, or by one on a free cell, keeps the assertions of `update` satisfiable |
| Worlds.Put | python/environment.py:35 | writing `grid[y][x]` changes that cell and no other, and keeps the grid's shape |
| Environments.OccupancyOfNothing | python/environment.py:16 | with no agents and no fruits the rebuilt grid is the fresh grid of zeros |
| Environments.FindAgentExtended | python/environment.py:48-49 | looking one agent further finds the earlier hit if there was one, else the new agent exactly when it stands on the cell |
| Environments.FindFruitExtended | python/environment.py:50-51 | looking one fruit further finds the earlier hit if there was one, else the new fruit exactly when it is uncarried and lies on the cell |
| Environments.ShowAgent | python/environment.py:53-55 | writing agent j on its free cell turns the grid of the first j agents into the grid of the first j+1, which still share no cell |
| Environments.AgentsStaySeparate | python/environment.py:54 | an agent on a cell none of the previous agents holds keeps the agents apart |
| Environments.AgentCellEmpty | python/environment.py:54 | on the grid of the first j agents a cell is `0` exactly when none of them stands there |
| Environments.AgentClash | python/environment.py:54 | when the assertion of `update_agent` fails, two agents share a cell |
| Environments.HideCarriedFruit | python/environment.py:58 | a carried fruit leaves the grid as it was |
| Environments.ShowFruit | python/environment.py:57-60 | writing an uncarried fruit on its free cell turns the grid of the first k fruits into the grid of the first k+1 |
| Environments.FruitCellExtended | python/environment.py:60 | after fruit k is written its cell holds its key and every other cell is unchanged |
| Environments.FruitsStaySeparate | python/environment.py:57-60 | a carried fruit, or one on a cell free of agents and earlier fruit, keeps everything apart |
| Environments.FruitClash | python/environment.py:59 | when the assertion of `update_fruit` fails, the fruit shares its cell with an agent or another uncarried fruit |
| Environments.ScatteredNothing | python/environment.py:20-29 | placing nothing leaves the grid as it was |
| Environments.ScatterOne | python/environment.py:28-29 | marking one more still-empty cell extends the scattering by that cell |
| Environments.Spawned | python/environment.py:32-35 | the agents appended are exactly one new agent per placed cell, in placement order |
| Environments.Sown | python/environment.py:39-43 | the fruits appended are exactly one new fruit per placed cell, with the key drawn for it |
| Environments.BaseKey | python/environment.py:41 | the key is `'A'` exactly when the draw is below p_A and `'B'` otherwise |
| Environments.BaseKeys | python/environment.py:41 | one key per draw, in draw order, each `'A'` exactly when its draw is below p_A |
| Environments.KeyMarks | python/environment.py:43 | each placed fruit marks its cell with its own key, in placing order |
| Environments.PlacedWasFree | python/environment.py:28 | a placed cell was empty, so no agent and no uncarried fruit stood on it |
| Environments.StillEmpty | python/environment.py:28 | a cell still empty after scattering was not placed on and was empty before |
| Environments.ScatteredAgentsSeparate | python/environment.py:31-36 | agents scattered onto empty cells, where empty means free, share no cell with each other or with anything already there, and empty still means free |
| Environments.ScatteredFruitsSeparate | python/environment.py:38-44 | fruits scattered onto empty cells, where empty means free, share no cell with each other or with anything already there, and empty still means free |
| Environments.FirstCarried | python/agent.py:62-67 | the search loop returns the position of the first neighbouring fruit that passes `will_carry`, or none |
| Environments.Environment.constructor | python/environment.py:11-18 | a new environment has n rows of m zeros and no agents or fruits |
| Environments.Draw | python/environment.py:22-27 | one round's drawing uses 1 to r+1 picks, every pick before the last hit a taken cell, and stopping early means the last cell is empty |
| Environments.Round | python/environment.py:22-29 | a round uses 1 to r+1 picks; when its last cell is empty the next item is placed there with the next mark, and otherwise nothing changes |
| Environments.Generated | python/environment.py:20-29 | after `rounds` rounds at most `rounds` items are placed, using between `rounds` and rounds*(r+1) picks, on a grid of the same shape |
| Environments.RoundScatter | python/environment.py:22-29 | one more round keeps the placed cells fresh, each marked by its own mark, and every other cell unchanged |
| Environments.RoundFromPicks | python/environment.py:22-29 | one more round keeps every placed cell among the picks consumed |
| Environments.GeneratedStep | python/environment.py:21-29 | round k+1 of `desired` is round k followed by one more `Round`, and the picks such a round needs are within the budget |
| Environments.GeneratedScatters | python/environment.py:20-29 | the rounds place items on distinct cells that were empty, mark each with its own mark, and leave every other cell as it was |
| Environments.GeneratedFromPicks | python/environment.py:20-29 | every cell the rounds place is one of the picks they consumed |
| Environments.Environment.GenerateItem | python/environment.py:20-29 | the grid, the placed cells and the picks used are exactly those of `Generated`: each round draws up to r+1 times, and a round whose final cell is empty places the item there; only the grid changes |
| Environments.Environment.PlayRounds | python/environment.py:21-29 | the loop over the `desired` rounds leaves exactly the outcome `Generated` gives and changes only the grid |
| Environments.Environment.PlayRound | python/environment.py:22-29 | one round on the grid in place leaves exactly the outcome `Round` gives |
| Environments.Environment.DrawCell | python/environment.py:22-27 | the retry loop returns exactly the cell and the pick count `Draw` gives |
| Neighborhoods.TimesGrows | python/environment.py:20-21 | the pick budget rounds*(r+1) of the rounds grows with the number of rounds |
| Neighborhoods.TimesIsMultiplication | python/environment.py:20-21 | the linear product `Times` used for the budgets agrees with multiplication |
| Environments.Environment.InitialiseAgents | python/environment.py:31-36 | places the agents exactly where `Generated` does, appends one new agent per placed cell, marks those cells `'X'`, and keeps every agent and fruit on its own cell |
| Environments.Environment.InitialiseFruits | python/environment.py:38-44 | places the fruits exactly where `Generated` does, appends one new fruit per placed cell with key `'A'` when its draw is below p_A and `'B'` otherwise, marks each cell with the key, and keeps everything on its own cell; the new fruits are those `Sown` from the placed cells and the drawn keys |
| Environments.Environment.ScatterFruits | python/environment.py:38-44 | places the fruits exactly where `Generated` does, appends one fruit per placed cell with the given key, marks the cells with the keys, and keeps everything on its own cell |
| Environments.Environment.Act | python/agent.py:37-73 | the in-place act of agent i leaves exactly the world the forager step describes |
| Environments.Environment.Notice | python/agent.py:38-47 | the observation and memory update give exactly the memory of the step |
| Environments.Environment.Stepped | python/agent.py:49-54 | the agent after noticing and stepping is exactly the moved agent of the step |
| Environments.Environment.CarrierSettle | python/agent.py:56-61 | the carrier's release in place leaves exactly the world the carrier branch describes |
| Environments.Environment.FreeSettle | python/agent.py:62-73 | the free agent's search and pick-up in place leave exactly the world the free branch describes |
| Environments.Environment.TakeFruit | python/agent.py:69-73 | the pick-up in place leaves exactly the world `PickUp` describes |
| Environments.Environment.Update | python/environment.py:46-60 | `update` passes all its assertions exactly when no two agents, no two uncarried fruits and no agent and uncarried fruit share a cell, and then the grid shows exactly the agents and uncarried fruits |
| Environments.Environment.UpdateAgents | python/environment.py:47-49 | the agent loop passes exactly when no two agents share a cell, and then the grid shows exactly the agents |
| Environments.Environment.UpdateFruits | python/environment.py:50-51 | the fruit loop passes exactly when nothing shares a cell, and then the grid shows agents and uncarried fruits |
| Environments.Environment.UpdateAgent | python/environment.py:53-55 | `update_agent` either adds agent j to the grid or fails on a cell another agent holds |
| Environments.Environment.PlaceAgent | python/environment.py:55 | the write puts agent j on the grid of the agents before it |
| Environments.Environment.UpdateFruit | python/environment.py:57-60 | `update_fruit` skips a carried fruit, adds an uncarried one on a free cell, and fails only when something shares its cell |
| Foraging.Pick | python/agent.py:42 | `random.choice` returns an element of the list |
| Foraging.FruitNeighborsBelow | python/environment.py:87-90 | every fruit neighbour is an index into the fruit list |
| Foraging.Observe | python/agent.py:40-42 | the noted key is `0` with no fruit near, and otherwise the key of one of the neighbouring fruit |
| Foraging.CarryVotes | python/agent.py:64-65 | one `will_carry` outcome per neighbouring fruit, in order, each against that fruit's own draw |
| Foraging.FirstTrue | python/agent.py:64-67 | the `for ... break` loop stops at the first accepted position, with every earlier one rejected, and finds none exactly when all are rejected |
| Foraging.SetAgent | python/agent.py:37-73 | replacing agent i keeps the world well formed and leaves the grid, the other agents and every fruit's key and colour unchanged |
| Foraging.Release | python/agent.py:57-61 | putting a fruit down keeps the world well formed and changes nothing beyond agent i and fruit positions |
| Foraging.PickUp | python/agent.py:69-73 | taking a fruit keeps the world well formed and changes nothing beyond agent i and fruit carried flags |
| Foraging.FruitAround | python/agent.py:39 | the fruit neighbours of agent i are fruit indices within one step of it |
| Foraging.ActMemory | python/agent.py:44-47 | the memory after the observation never exceeds 100 entries |
| Foraging.EmptyAround | python/agent.py:38 | every empty neighbour of agent i is an empty cell on the grid one king move from it |
| Foraging.CarrierSettles | python/agent.py:56-61 | the carrier branch stays in the act's frame and leaves the agent where it stepped, with its new memory |
| Foraging.FreeSettles | python/agent.py:62-73 | the free branch stays in the act's frame and leaves the agent with its new memory |
| Foraging.Moved | python/agent.py:49-54 | the stepped agent keeps its fruit and role, has the new memory and stands on the empty neighbour the draw picks |
| Foraging.ForagerStep | python/agent.py:37-73 | an act keeps the world well formed and touches only agent i and fruit positions and carried flags |
| Foraging.FirstTrueIsFirstAccepted | python/agent.py:64-67 | if position t is accepted and none before is, the loop stops at t |
| Foraging.StepMemory | python/agent.py:44-47 | after an act the agent holds exactly the updated memory |
| Foraging.ForagerRemembers | python/agent.py:40-47 | the new memory is the old one updated with `0` when no fruit is near, or with the key of a neighbouring fruit |
| Foraging.ForagerBlocked | python/agent.py:49-50 | with no empty neighbour the agent only updates its memory and no fruit changes |
| Foraging.ForagerMovesOneStep | python/agent.py:52-73 | with an empty neighbour the agent ends on a different cell one king move from where it stood |
| Foraging.FreeMovesOneStep | python/agent.py:62-73 | a free agent ends on a different cell one king move away |
| Foraging.CarrierMovesOneStep | python/agent.py:53-61 | a carrier ends on a different cell one king move away |
| Foraging.PickedNeighbour | python/agent.py:54 | the chosen empty cell is a different cell one king move away |
| Foraging.FreeSettlesStaysNear | python/agent.py:69-70 | after stepping a free agent stays on its step or moves onto a fruit one king move from its old cell |
| Foraging.ForagerReleases | python/agent.py:56-61 | a stepping carrier that passes `will_release` puts its fruit on the cell it left, uncarried, and becomes free with colour 3; otherwise fruit and colour are untouched |
| Foraging.ForagerPicksUp | python/agent.py:62-73 | a stepping free agent takes the first neighbouring fruit passing `will_carry`, stands on it, wears its colour and marks it carried; if none passes nothing is taken |
| Foraging.FreeSettlesPicks | python/agent.py:62-73 | the free branch takes the first accepted fruit, moving onto it with its colour, or leaves agent and fruits as they were |
| Foraging.ForagerStepSeparate | python/agent.py:37-73 | an act on an up-to-date grid keeps every agent and uncarried fruit on its own cell, so the next `update` succeeds |
| Foraging.BlockedStepSeparate | python/agent.py:49-50 | a blocked act keeps everything on its own cell |
| Foraging.CarrierStepSeparate | python/agent.py:53-61 | a carrier's act keeps everything on its own cell |
| Foraging.FreeStepSeparate | python/agent.py:53-73 | a free agent's act keeps everything on its own cell |
| Foraging.StepToEmpty | python/agent.py:54 | stepping onto a cell the grid shows empty keeps everything on its own cell |
| Foraging.CarrierSettlesSeparate | python/agent.py:56-61 | the release onto the vacated cell keeps everything on its own cell |
| Foraging.FreeSettlesSeparate | python/agent.py:62-73 | the pick-up keeps everything on its own cell |
| Foraging.DropOnVacated | python/agent.py:58 | a fruit dropped on the cell its carrier just left shares it with nothing |
| Foraging.TakeKeepsSeparate | python/agent.py:70-73 | stepping onto an uncarried fruit and carrying it keeps everything on its own cell |
| Helping.HelperCarryRate | python/version2.py:25-31 | a helper's pick-up rate is in (0, 1], equals the forager's rate for light keys and is strictly below it, by the factor 0.9, for the heavy key `C` |
| Helping.DecideHelperCarry | python/version2.py:25-31 | `HelperAgent.will_carry` answers true exactly when the draw is below the helper's pick-up rate |
| Helping.HelperCarryAgainstForager | python/version2.py:25-31 | on light fruit a helper decides exactly like a forager; on heavy fruit every helper acceptance is a forager acceptance, and some draw a forager accepts the helper skips |
| Helping.KeepLinks | python/version2.py:38-138 | an act that keeps the other agents and leaves agent i with no fruit, its old fruit or a light fruit keeps every helper link sound |
| Helping.HeavyVotes | python/version2.py:55-58 | one vote per neighbouring fruit, true exactly for heavy fruit the helper would carry |
| Helping.HelperVotes | python/version2.py:93-96 | one `HelperAgent.will_carry` outcome per neighbouring fruit, in order |
| Helping.Votes | python/version2.py:93-96 | one `will_carry` vote per neighbouring fruit, taken with the updated memory |
| Helping.FirstHelper | python/version2.py:101-104 | the search finds the agent on the first neighbour cell of the fruit holding a helper other than agent i, that agent being a helper other than i; none exactly when no such cell exists |
| Helping.Blocked | python/version2.py:53-62 | a blocked helper only changes its memory, and keeps links sound and the scene well formed |
| Helping.HeavyRelease | python/version2.py:71-79 | carrier and helper are both let go, with the fruit put down on the carrier's old cell, and links stay sound (corrected, see ## Findings) |
| Helping.HeavyKeep | python/version2.py:80-83 | the helper follows onto the carrier's old cell, nothing else changes, and links stay sound |
| Helping.Couple | python/version2.py:104-113 | the carrier stands on the fruit and carries it with the helper linked, the helper is marked helping, both wear the fruit's colour, and links stay sound |
| Helping.CoupleSound | python/version2.py:104-113 | the coupled world is well formed, keeps every role and keeps links sound |
| Helping.AroundFruit | python/version2.py:101 | the cells searched for a helper are exactly the radius-1 neighbours of the fruit, all on the grid |
| Helping.HeavyPickUp | python/version2.py:99-117 | choosing heavy fruit keeps the scene well formed, every role and links sound |
| Helping.Wander | python/version2.py:124-138 | a helper that took nothing only changes its position, to the signal it follows, and keeps links sound |
| Helping.SignalTurn | python/version2.py:137-138 | the helper moves to the followed signal's cell if there is one and otherwise keeps its step, changing nothing else |
| Helping.HelperChooses | python/version2.py:90-138 | a free helper's choice keeps the scene well formed, every role and links sound |
| Helping.HelperCarries | python/version2.py:64-89 | a carrying helper's move keeps the scene well formed, every role and links sound |
| Helping.HelperStep | python/version2.py:38-138 | a helper act keeps the scene well formed, every role and links sound, and a helping agent does nothing |
| Conduct.BlockedHelperSignals | python/version2.py:53-62 | a blocked helper only changes its memory; the signal grid changes exactly when it would carry an adjacent heavy fruit, and then by a release around its cell |
| Conduct.BlockedSignal | python/version2.py:54-61 | the blocked branch releases signals exactly when some heavy fruit next to the helper passes `will_carry` |
| Conduct.HeavyVoteFound | python/version2.py:55-59 | the heavy-fruit loop finds a fruit exactly when some neighbouring heavy fruit passes the helper's `will_carry` |
| Conduct.LightCarrierForages | python/version2.py:84-89 | a helper carrying light fruit acts exactly as a plain agent would and leaves the signal grid alone |
| Conduct.BlockedHelperForages | python/version2.py:53-62 | a blocked helper leaves the same world as a blocked plain agent; only the signal grid can differ |
| Conduct.HeavyCarrierReleases | python/version2.py:70-79 | a releasing heavy carrier steps to the drawn empty cell, drops the fruit on its old cell, and it and its helper (which stays put) end free with colour 3 (corrected, see ## Findings) |
| Conduct.HeavyCarrierKeeps | python/version2.py:80-83 | a heavy carrier that keeps its fruit steps and drags its helper onto its old cell, so the two stay one king move apart |
| Conduct.KeepFollows | python/version2.py:80-83 | after a keep the helper stands on the carrier's old cell, next to and not on the carrier |
| Conduct.CarrierKeepsHeavy | python/version2.py:80-83 | a heavy carrier that fails `will_release` takes exactly the keep branch |
| Conduct.UpdatedShowsAgents | python/environment.py:46-55 | a grid `update` rebuilt, with nothing sharing a cell, shows each agent on its own cell |
| Conduct.FirstHelperFinds | python/version2.py:101-104 | the helper search finds a partner exactly when another helper stands next to the fruit, and the partner it finds is one |
| Conduct.FoundHelperIsNear | python/version2.py:101-104 | a found partner is a helper other than the agent, standing next to the fruit |
| Conduct.NoHelperFound | python/version2.py:101-104 | a failed search means no other helper stands next to the fruit |
| Conduct.HeavyPickUpCouples | python/version2.py:99-113 | with a helper next to the heavy fruit, one such helper is recruited and marked helping, both wear the fruit's colour, the carrier stands on the carried fruit and the partner is next to it |
| Conduct.CoupleReadBack | python/version2.py:104-113 | the coupled carrier and partner read back as written and stand one king move apart |
| Conduct.HeavyPickUpAlone | python/version2.py:115-117 | with no helper next to the heavy fruit the agent is back on its old cell, nothing is carried and signals spread from that cell |
| Conduct.HelperChoosesHeavy | python/version2.py:91-99 | a free helper whose first accepted fruit is heavy takes the heavy pick-up branch with that fruit |
| Conduct.HelperTakesLight | python/version2.py:119-123 | a free helper whose first accepted fruit is light steps onto it, carries it, wears its colour, and leaves the signal alone |
| Conduct.SignalTurnFollows | python/version2.py:124-138 | signal following ends on a strongest positive empty neighbour of the old cell, or on the stepped cell when there is none |
| Conduct.HelperFollowsSignal | python/version2.py:124-138 | a free helper accepting no fruit changes only its memory and position, and ends on the strongest positive empty neighbour of its old cell or, without one, on the cell it stepped to |
| Cooperation.Restyle | python/version2.py:104-109 | recolouring or marking an agent without moving it keeps everything on its own cell |
| Cooperation.MovedSeparate | python/version2.py:65-66 | the step to the chosen empty neighbour goes to another cell and keeps everything on its own cell |
| Cooperation.HeavyReleaseSeparate | python/version2.py:71-79 | the heavy release, fruit dropped on the vacated cell, keeps everything on its own cell |
| Cooperation.HeavyKeepSeparate | python/version2.py:80-83 | the helper dragged onto the vacated cell keeps everything on its own cell |
| Cooperation.CarriesSeparate | python/version2.py:64-89 | every carrying branch keeps everything on its own cell |
| Cooperation.CoupleSeparate | python/version2.py:104-113 | the carrier stepping onto the fruit with its partner recruited keeps everything on its own cell |
| Cooperation.HeavyPickUpSeparate | python/version2.py:99-117 | both outcomes of a heavy pick-up keep everything on its own cell |
| Cooperation.WanderSeparate | python/version2.py:124-138 | signal following, which moves only onto an empty cell, keeps everything on its own cell |
| Cooperation.TakesSeparate | python/version2.py:98-123 | taking an accepted fruit, heavy or light, keeps everything on its own cell |
| Cooperation.ChoosesSeparate | python/version2.py:90-138 | every free-helper branch keeps everything on its own cell |
| Cooperation.HelperStepKeepsFree | python/version2.py:38-138 | a helper act keeps everything on its own cell when every empty cell is free |
| Cooperation.HelperStepSeparate | python/version2.py:222-224 | from a grid `update` just rebuilt, a helper act keeps everything on its own cell, so the next `update` passes its assertions |
| Cooperation.HeavyPickUpSignal | python/version2.py:115-117 | a heavy pick-up leaves the signal unchanged or adds one release around the agent's own cell |
| Cooperation.ChoosesSignal | python/version2.py:90-138 | a free helper leaves the signal unchanged or adds one release around its own cell |
| Cooperation.CarriesSignal | python/version2.py:64-89 | a carrying helper never changes the signal grid |
| Cooperation.StepSignal | python/version2.py:38-138 | a helper act leaves the signal unchanged or adds one release around the helper's cell before the act |
| Cooperation.HelperStepSignal | python/version2.py:53-117 | a helper act changes the signal grid at most by one release around its own cell, and so keeps signals in [0, 1] |
| Signals.Zeros | python/version2.py:151 | the new signal grid has n rows of m cells, all 0 |
| Signals.Fade | python/version2.py:156 | a decayed intensity is the old one less 0.1, or 0 when that would be negative |
| Signals.Boost | python/version2.py:192 | an added intensity is the sum, or 1 when the sum exceeds 1 |
| Signals.Decayed | python/version2.py:153-156 | `decay_signals` fades every cell and keeps the grid's shape |
| Signals.DecayedTimes | python/version2.py:220 | repeated decay keeps the grid's shape |
| Signals.DecayKeepsUnit | python/version2.py:153-156 | decay keeps every intensity in [0, 1] |
| Signals.DecayLowers | python/version2.py:153-156 | decay lowers any upper bound by 0.1, down to 0 |
| Signals.DecayedTimesBound | python/version2.py:153-156 | after k <= 10 decays of a grid in [0, 1] every intensity is at most 1 - 0.1k |
| Signals.SignalsFadeOut | python/version2.py:145-156 | with no new deposit every signal has died out after ten ticks |
| Signals.Added | python/version2.py:191-192 | `add_signal` raises that one cell, capped at 1, and leaves every other cell and the shape alone |
| Signals.AddKeepsUnit | python/version2.py:191-192 | a non-negative deposit keeps a grid in [0, 1] |
| Signals.Intensity | python/version2.py:35-36 | the deposit at distance 1, 2, 3 is 1, 2/3, 1/3 |
| Signals.Deposit | python/version2.py:34-36 | the deposit loop keeps the grid's shape |
| Signals.DepositStep | python/version2.py:34-36 | the first deposit of the loop is in range, and the rest of the loop continues on the raised grid |
| Signals.DepositEffect | python/version2.py:34-36 | depositing along a list without repeats raises each listed cell once by the intensity of its distance and leaves every other cell alone |
| Signals.Released | python/version2.py:33-36 | `release_signals` keeps the grid's shape |
| Signals.ReleaseRings | python/version2.py:33-36 | after a release every cell 1 to 3 steps from the centre has been raised once by 1, 2/3 or 1/3, capped at 1, and the centre and farther cells are unchanged |
| Signals.ReleaseSaturates | python/version2.py:33-36 | on a grid in [0, 1] a release leaves the first ring at 1, the second at least 2/3, the third at least 1/3, and the grid in [0, 1] |
| Signals.Spots | python/version2.py:125 | one (x, y, intensity) triple per neighbour, in neighbour order, read off the signal grid |
| Signals.Swap | python/version2.py:127 | a swap exchanges two positions and keeps the rest |
| Signals.SwapPermutes | python/version2.py:127 | a swap only reorders |
| Signals.ShuffleDown | python/version2.py:127 | the Fisher-Yates passes keep the length |
| Signals.ShuffleDownPermutes | python/version2.py:127 | the Fisher-Yates passes only reorder |
| Signals.Shuffled | python/version2.py:127 | `random.shuffle` keeps the length and only reorders, whatever its draws |
| Signals.Insert | python/version2.py:128 | inserting into a list sorted by intensity keeps it sorted and adds exactly that spot |
| Signals.SplitLast | python/version2.py:128 | a list is its front plus its last element, as multisets |
| Signals.SortBySignal | python/version2.py:128 | the sort returns the spots in ascending intensity, as a permutation of its input |
| Signals.WithSignal | python/version2.py:128 | the spots of one intensity, in order, are drawn from the list and all have that intensity |
| Signals.WithSignalSnoc | python/version2.py:128 | a spot added at the end of a list is added at the end of its own intensity's spots and nowhere else |
| Signals.InsertStable | python/version2.py:128 | an insertion puts the new spot after every spot of its own intensity and reorders no spots of one intensity |
| Signals.SortStable | python/version2.py:128 | `list.sort` is stable: for every intensity the sorted spots of that intensity are those of the input in the same order, so ties keep their shuffled order |
| Signals.ScanFromFinds | python/version2.py:129-136 | the scan from the strongest spot finds a positive spot on an empty cell at least as strong as every empty spot it passed, or, finding nothing, no empty spot there is positive |
| Signals.ScanFrom | python/version2.py:129-136 | a spot found by the scan from `s[-i]` down is one of those spots, on an empty cell, with a positive intensity |
| Signals.SkipOccupied | python/version2.py:133-136 | passing over a spot on an occupied cell keeps what the rest of the scan found strongest, or keeps that nothing empty is positive |
| Signals.SortedOn | python/version2.py:125-128 | every neighbour's spot survives the shuffle and the sort, and all stay on the grid |
| Signals.ScanOfPermutation | python/version2.py:127-136 | scanning any sorted reordering of the spots finds a strongest positive spot on an empty cell, or establishes that no empty cell is positive |
| Signals.FollowSignal | python/version2.py:124-138 | the signal followed is a positive empty neighbour at least as strong as every empty neighbour, and there is none exactly when no empty neighbour is positive |
| Signals.SpotsOfCells | python/version2.py:125-136 | the strongest-spot facts carry over from spots to the neighbour cells and the signal grid |
| ComplexEnvironments.FirstHeavy | python/version2.py:54-58 | the loop returns the first neighbouring fruit that is heavy and passes `will_carry`, or none |
| ComplexEnvironments.FirstHelperCarried | python/version2.py:92-96 | the loop returns the first neighbouring fruit that passes the helper's `will_carry`, or none |
| ComplexEnvironments.ScanSignals | python/version2.py:129-136 | the while loop finds exactly what the scan from the strongest spot finds |
| ComplexEnvironments.ComplexKey | python/version2.py:186 | `random.choice(['A', 'B', 'C'])` returns one of the three keys, each exactly for one residue of the draw modulo 3 |
| ComplexEnvironments.ComplexKeys | python/version2.py:186 | one `random.choice` key per choice draw, in draw order |
| ComplexEnvironments.FindHelper | python/version2.py:101-104 | the loop over the fruit's neighbours finds exactly the first helper other than the agent |
| ComplexEnvironments.SignalTarget | python/version2.py:125-136 | the in-place shuffle, sort and scan give exactly the followed cell, with at least one and at most eight neighbours |
| ComplexEnvironments.BlockedParts | python/version2.py:53-62 | the blocked branch keeps the new memory, and releases signals from the helper's cell exactly when the heavy-fruit loop found a fruit |
| ComplexEnvironments.CarriesParts | python/version2.py:64-89 | a light carrier acts as a plain agent, and a heavy carrier has a helper and releases or keeps by `will_release` |
| ComplexEnvironments.ChoosesParts | python/version2.py:90-138 | a free helper wanders when no fruit passes, picks up heavy fruit with a partner, or takes light fruit alone |
| ComplexEnvironments.ChoosesLight | python/version2.py:118-123 | when the accepted fruit is light the helper takes it alone and the signal is untouched |
| ComplexEnvironments.ComplexEnvironment.constructor | python/version2.py:147-151 | a new complex environment has an empty n-by-m world and a zero signal grid |
| ComplexEnvironments.ComplexEnvironment.DecaySignals | python/version2.py:153-156 | the nested loop leaves exactly the faded grid |
| ComplexEnvironments.ComplexEnvironment.AddSignal | python/version2.py:191-192 | the one cell rises, capped at 1, and no other cell changes |
| ComplexEnvironments.ComplexEnvironment.ReleaseSignals | python/version2.py:33-36 | the loop over the radius-3 neighbours leaves exactly the released grid |
| ComplexEnvironments.ComplexEnvironment.DepositAll | python/version2.py:34-36 | the deposit loop leaves exactly the grid the deposit function describes |
| ComplexEnvironments.ComplexEnvironment.HelperAct | python/version2.py:38-138 | the in-place helper act leaves exactly the scene the helper step describes |
| ComplexEnvironments.ComplexEnvironment.ActBlocked | python/version2.py:53-62 | in place, a blocked helper changes only its memory, and the signal grid exactly when the heavy-fruit loop found a fruit |
| ComplexEnvironments.ComplexEnvironment.ActCarrying | python/version2.py:64-89 | in place, a carrying helper leaves exactly the carrying scene |
| ComplexEnvironments.ComplexEnvironment.CarryLight | python/version2.py:84-89 | in place, a light carrier leaves exactly what a plain agent's carrier branch leaves |
| ComplexEnvironments.ComplexEnvironment.CarryHeavy | python/version2.py:68-83 | in place, a heavy carrier leaves exactly the carrying scene |
| ComplexEnvironments.ComplexEnvironment.HeavyReleaseAct | python/version2.py:71-79 | in place, the release leaves exactly the heavy release scene (corrected, see ## Findings) |
| ComplexEnvironments.ComplexEnvironment.HeavyKeepAct | python/version2.py:80-83 | in place, the keep leaves exactly the heavy keep scene |
| ComplexEnvironments.ComplexEnvironment.ActFree | python/version2.py:90-138 | in place, a free helper leaves exactly the chosen scene |
| ComplexEnvironments.ComplexEnvironment.FreePick | python/version2.py:97-123 | in place, taking the accepted fruit leaves exactly the chosen scene |
| ComplexEnvironments.ComplexEnvironment.PickHeavy | python/version2.py:99-117 | in place, a heavy choice leaves exactly the chosen scene |
| ComplexEnvironments.ComplexEnvironment.PickLight | python/version2.py:118-123 | in place, a light pick-up leaves exactly the pick-up world and the signal alone |
| ComplexEnvironments.ComplexEnvironment.FreeWander | python/version2.py:124-138 | in place, a helper that took nothing leaves exactly the chosen scene |
| ComplexEnvironments.ComplexEnvironment.HeavyPickUpAct | python/version2.py:99-117 | in place, the heavy pick-up leaves exactly the heavy pick-up scene |
| ComplexEnvironments.ComplexEnvironment.CoupleAct | python/version2.py:104-113 | in place, recruiting the partner leaves exactly the coupled scene |
| ComplexEnvironments.ComplexEnvironment.StayBack | python/version2.py:115-117 | in place, the agent returns to its old cell and signals spread from there; nothing else changes |
| ComplexEnvironments.ComplexEnvironment.FollowSignals | python/version2.py:124-138 | in place, signal following leaves exactly the wandering scene |
| ComplexEnvironments.ComplexEnvironment.InitialiseAgents | python/version2.py:176-181 | places the helpers exactly where `Generated` does, appends one new helper per placed cell, marks the cells `'X'`, and keeps everything on its own cell |
| ComplexEnvironments.ComplexEnvironment.InitialiseFruits | python/version2.py:183-189 | places the fruits exactly where `Generated` does, appends one new fruit per placed cell with the key `random.choice` drew, marks the cells with the keys, and keeps everything on its own cell; the new fruits are those `Sown` from the placed cells and the drawn keys |
| ComplexEnvironments.ComplexEnvironment.ActThenUpdate | python/version2.py:223-224 | one act and the `update` after it leave exactly the scene the pure act-and-update describes, with every assertion of `update` passing |
| ComplexEnvironments.ComplexEnvironment.Refresh | python/environment.py:46-60 | on a world where nothing shares a cell, `update` rebuilds the grid and changes nothing else |
| ComplexEnvironments.SpawnedFit | python/version2.py:176-181 | the helpers placed on fresh cells fit the grid and start free, carrying nothing and with no helper |
| ComplexEnvironments.SownFit | python/version2.py:183-189 | the fruits placed on fresh cells fit the grid |
| ComplexEnvironments.NewWithHelpers | python/version2.py:210-211 | a new square environment with its helpers placed, and its grid marked, exactly as `Generated` does on a blank grid, no fruit yet, a zero signal grid, and every `0` cell free |
| ComplexEnvironments.AddFruits | python/version2.py:212 | placing the fruits keeps the size and the agents, puts them on the cells `Generated` picks on the grid as it was, sows them with the drawn keys, and keeps every `0` cell free and every cell to one item |
| ComplexEnvironments.SetUp | python/version2.py:210-213 | the set-up of `main` (new environment, helpers, fruits, `update`) ends in a settled world with zero signals, helpers placed where `Generated` puts them on a blank grid, fruits placed where `Generated` then puts them on the grid the helpers left and sown with the drawn keys, so `Tick` may run from it |
| ComplexEnvironments.ComplexEnvironment.Decay | python/version2.py:220 | the decay that opens a tick leaves exactly the decayed scene |
| ComplexEnvironments.ComplexEnvironment.ActNext | python/version2.py:222-224 | one act of the schedule keeps the environment settled and the rest of the tick on course |
| ComplexEnvironments.ComplexEnvironment.Tick | python/version2.py:219-224 | a whole tick in place leaves exactly the ticked scene: decayed, then each agent's act followed by `update`, in the shuffled order |
| ComplexEnvironments.ComplexEnvironment.ActInOrder | python/version2.py:222-224 | the agent loop leaves exactly the scene of all the acts in order |
| Ticks.Rebuilt | python/environment.py:46-60 | the rebuilt world shows exactly its agents and uncarried fruit and keeps them and its size |
| Ticks.ActAndUpdate | python/version2.py:223-224 | an act followed by `update` keeps the world settled: distinct cells, up-to-date grid, sound links, all helpers, signals in [0, 1] |
| Ticks.StepSettles | python/version2.py:223-224 | from a settled world a helper act is possible and the `update` after it leaves a settled world with as many agents and fruit |
| Ticks.Acts | python/version2.py:222-224 | any run of acts, each followed by `update`, keeps the world settled and the counts fixed |
| Ticks.ScheduleKept | python/version2.py:222 | a schedule for a world fits every world with as many agents and fruit |
| Ticks.DecayScene | python/version2.py:220 | the decay keeps the world settled, fades every cell and moves nothing |
| Ticks.Ticked | python/version2.py:219-224 | a whole tick keeps the world settled and the numbers of agents and fruit fixed |
| Ticks.SetUpSettles | python/version2.py:210-213 | a well formed world of free helpers and fruit on distinct cells, once `update` rebuilds its grid, is settled |
| Findings.ClassAttribute | python/agent.py:4-6 | a class attribute of `Agent` exists exactly for the names bound on the class, with their values: those of the class body and `is_helping`, which `HelperAgent.__init__` sets on the class (python/version2.py:23) |
| Findings.ReleaseColourAsWritten | python/version2.py:74 | the colour read as written exists only when `Agent` has an integer class attribute `color` |
| Findings.ReleaseAsWrittenRaises | python/version2.py:74-87 | `Agent` has no class attribute `color`, so every release as written raises |
| Findings.HelperStepAsWritten | python/version2.py:70-89 | as written, a helper's act fails exactly when it takes a release branch; every other act is the corrected one |
| Findings.ReleaseColour | python/agent.py:14 | the intended release colour is the one every new agent gets |
| Findings.HeavyReleaseRecolours | python/version2.py:70-79 | corrected, a heavy release gives carrier and helper the creation colour, frees the helper and leaves the carrier without fruit |
| Findings.LightReleaseRecolours | python/version2.py:85-89 | corrected, a light release gives the carrier the creation colour and leaves it without fruit |

## Left out

- Display and the driver: `display` and the curses calls of `main` (python/version2.py:158-174, 194-209, 214, 218-219, 225-233) only draw or wait for a key. The set-up of python/version2.py:210-213 is `ComplexEnvironments.SetUp`: its sizes (30 by 30, 40 helpers, 200 fruits) are parameters and the random draws are inputs. `Tick` models one pass of the animation loop's body (python/version2.py:217-224); the 20000 passes are not modelled as a loop.
- python/main.py and python/version1.py are not part of this model.
- Randomness: `random.random`, `random.randint`, `random.choice` and `random.shuffle` are not modelled as a generator. Their results come in as parameters (`Draws`, `picks`, key draws, choice draws). No claim is made about the distribution.
- Environments.Environment.GenerateItem: `generate_item` draws as often as its rounds need. The model asks for enough `picks` for every round to spend all r+1 draws (`Times(desired, r + 1)`) and returns how many it used.
- `random.choice(s)` is `s[k % len(s)]` for a drawn `k`. `randbelow` in the shuffle is a drawn number taken modulo the range.
- Foraging.CarryVotes: there is one `will_carry` draw per fruit index, not one per call in call order. Each fruit considered compares against its own draw. Any sequence of draws the source consumes is one such assignment, and the draws no call consumes are unused.
- Floating point: probabilities, frequencies and intensities are exact reals. IEEE rounding, where `1 - 2/3` is not exactly `1/3` and `0.1` is not exactly 0.1, is not captured. So a signal that starts at 1 has died out after ten ticks here (`Signals.SignalsFadeOut`). In IEEE doubles ten subtractions of 0.1 from 1 leave about 1.4e-16, so it dies out one tick later.
- Grid shape: the world is required to be square once agents act (`Worlds.WellFormed`). `get_neighbors` bounds x by `n` and y by `m` (python/environment.py:79), so on a non-square grid the lookup `grid[y][x]` can fail. The driver uses 30 by 30.
- Object identity: agents and fruit are values in the environment's lists, and references (`agent.fruit`, `agent.helper`, an agent in a grid cell) are list indices. Aliasing beyond these links is not modelled.
- `random.shuffle(env.agents)` reorders the agent list itself. The model keeps the list and takes the shuffled order as a permutation of indices (`order`), so index-based links stay valid.
- Truthiness: `if self.fruit`, `if fruit` and `if signal` are modelled as `Some?` tests. A grid cell is falsy only when it is `0`, because fruit keys are non-empty (`Worlds.FruitFits`).
- Exceptions: the assertions of `update_agent` and `update_fruit` are modelled by `Environments.Environment.Update` returning `false`. The other assertions (python/agent.py:17-18, python/environment.py:33, 40, python/version2.py:82, 126, 178, 185) are proved to hold where the model reaches them.
- Environments.Environment.Update: after a failed assertion the grid is left unspecified. Python leaves the partly rebuilt grid and raises.
- Environments.Environment.InitialiseAgents takes the role of the new agents as a parameter, so that both `initialise_agents` share one body. `Agent` is `Forager` and `HelperAgent` is `Helper`.
- `Agent.is_helping = False` (python/version2.py:23) sets a class attribute on every new helper. An instance never set helping reads it as `False`, which is what `Agents.NewAgent` gives. An instance that set its own flag keeps it.
- ComplexEnvironments.FindHelper and ComplexEnvironments.SignalTarget take the world and the signal grid as values and compute on them. They run inside the in-place act.
- `HelperAgent` sets `self.helper` only on recruitment. The model gives every agent a `helper` field that is `None` until then.
- Ticks.Ticked: it takes `order` and one `Draws` per act as parameters and does not model how one generator state threads through the acts.

## Findings

| source | as written | input that shows it | evidently intended | confidence | as-written member | corrected member |
|---|---|---|---|---|---|---|
| python/version2.py:74 | a helper that releases fruit sets `self.color = Agent.color` (also lines 79 and 87); `color` exists only on instances (python/agent.py:14), so the lookup on the class raises `AttributeError` | any helper whose `will_release` passes, for example one carrying heavy fruit whose release draw is 0 while its memory holds the key | the release colour 3 of a plain agent (python/agent.py:59) | not executed | Findings.ReleaseAsWrittenRaises | Findings.HeavyReleaseRecolours |
