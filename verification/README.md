# Empire 5: a verified model

Empire is a multi-player war game on a hexagonal torus. This project models its hardest machinery and
proves, for every input and every roll of the dice, what that machinery keeps.

- **World generation** (`hex`, `grid`, `rings`, `bfs`, `coast`, `overlay`, `land`, `choice`, `sums`, `batches`,
  `capitals`, `elevation`, `resources`, `fairland`). The class `WorldGen.Fairland` has the generator's flat arrays
  as fields; its methods place and drift capitals, grow continents and islands under exclusion zones, search
  breadth-first through a ring buffer, raise the land, and try again when they fail. Geometry, search, separation
  and the shares of weighted choices are proved once on values, and the methods keep them.
- **The update** (`game`, `dijkstra`, `haulage`, `shipments`, `delivery`, `distribution`, `rounding`,
  `products`, `production`, `construction`, `industry`, `populace`, `ledger`, `repair`, `ocean`, `nations`,
  `mobility`, `tick`). Sectors, units, nations and accounts are arrays updated in place. Each phase is proved
  against a relation that says what it may do to each sector and account (random rounding and group order leave
  several outcomes); lemmas about the relations give the invariants of a whole update, after which the next one
  can start.
- **The update schedule** (`schedule`). The class `Schedule.Reader` keeps a bounded sorted list and refines
  "the `max` smallest of all times offered"; the loop over a repeated time is proved to end, with the exact
  condition under which it does not; and so is when a skip does harm.
- **Dumps** (`text`, `dump`, `getters`, `records`, `archive`). All six record types are written as text and
  read back, character by character.

How the model stands to the program:

- A roll of the dice is any value in range; random rounding is any outcome; the order of distribution groups
  is any order. Results hold for all of them.
- Every lemma is marked `{:induction false}`: a proof by induction calls the lemma itself on the smaller case.
- Floating-point numbers are exact: movement costs are whole thousandths; money, cargo costs, production and
  levels are rationals, and rounded to hundredths where they are dumped; dumped levels keep the sign of a zero.
  The logarithm is any function, and what a result needs of it is said where it is needed.
- Integer widths are written out where they matter: stocks saturate at 16 bits, casts wrap, differences of
  thresholds wrap, elevations are clamped to 16 bits. Proofs show that saturation and wrapping do not happen, or
  exactly when they do.
- The set of directions with land, a bit mask in the program, is a set of directions.
- A precondition stands for what the program takes for granted: an even world (the configuration says so), the
  generator's own argument checks, at most as many capitals as there are places for them, stocks and
  thresholds that are not negative (what happens otherwise is proved for deliveries), from 1 to 1000 time units
  to an update, and rates that do not let a population more than double.

Where the code does less than one might expect, the model follows the code:

- A threshold may be negative, and then a sector can send more than it has and keep a negative stock; the exact
  condition is `Shipments.OverdrawnIff` (`Shipments.EmptySectorOverdraws` is a case).
- Recruits are paid from the balance but on no line (`Ledger.ChargeUnbalances`); so the budget forecast is too
  high by just that (`Tick.BudgetPreview`).
- Building up uses no work, tearing down and building up both draw on all of it (`Construction.BuildEffKeeps`),
  and a redesignated sector makes its old product in the update that changes it
  (`Industry.RedesignatedMakesOld`, `Industry.RedesignatedMineDigs`).
- Cargo whose full cost in mobility is less than a whole point is carried for nothing (`Haulage.ChargeIs`), and a
  shipment cut short by a full destination is charged in full (`Shipments.OutgoingCharge`,
  `Shipments.IncomingCharge`).
- An export carries a distribution centre past its own threshold exactly when the member has that much to spare
  and room and mobility allow it (`Distribution.CentrePassesIff`); for a centre that has its threshold
  anything to spare is enough (`Distribution.FullCentrePasses` is a case).
- The logarithmic limit on technology and research raises what lies just above the easy part when the logarithm
  there is steep: up to one level above it for base 2 (`Nations.SumRaisedIff`, `Nations.BaseTwoRaises`), never
  for a flatter one (`Nations.SumNeverRaised`).
- A level is forgotten to below nothing by an update of very many time units (`Nations.DecayedIff`), and mobility
  above a lowered limit is lost (`Mobility.AccruedLosesIff`).
- Fish too many for 16 bits are lost in part or whole, exactly when (`Ocean.FishAreKeptIff`); a full fishing boat
  loses its catch in an update of 1200 time units (`Ocean.BoatLosesCatch`). Oil never is (`Ocean.OilIsKept`).
- Births too many for 16 bits are lost or shrink the population, exactly when (`Populace.BirthsKeptIff`); with a birth rate of
  0.4 a thousand civilians become less than none (`Populace.BirthsWrap`).
- `every 0 hours` can loop forever (`Schedule.EndlessIff`), and reading a file then does not end
  (`Schedule.Reader.Read` answers so); a repetition whose first time has passed adds
  nothing at all, not even its later times (`Schedule.EveryKeeps`); and a skip does not bring back what had
  not fitted (`Schedule.SkipLeavesGap`; exactly when it does harm is `Schedule.SkipKeepsIff`, and when the list is
  right at the end all the same `Schedule.FinalIsSmallestIff`).
- The running total of an island's sites counts far sites for less than their weight
  (`WorldGen.Fairland.PickSite`); so the choice is in proportion to the weights exactly when every site after the
  first counts in full (`Choice.ProportionateIff`), and a site that weighs as much as the running total replaces
  what was chosen before, whatever the roll (`Choice.SurelyReplacesIff`).
- A dump leaves out oil and uncompensated workers, turns underscores into spaces when it is read, and reads a
  dash as no letter; what was loaded dumps to the same text again (`Archive.NationsDumpAgain` and its like).

## Model

| member | source | states |
|---|---|---|
| Hex.WrapIsTwoRemainders | crates/empire-world/src/fairland.rs:141-142 | wrapping a coordinate with two truncating remainders is the same as reducing it modulo the width, for negative coordinates too |
| Hex.StepBack | crates/empire-world/src/fairland.rs:58-60 | a step in a direction followed by a step in the opposite direction comes back, anywhere on the torus |
| Hex.MapDistIsShortestWalk | crates/empire-world/src/fairland.rs:145-151 | the distance formula is the length of the shortest walk of hexagon steps on the torus: one walk has that length, none is shorter |
| Hex.DistTriangle | crates/empire-world/src/fairland.rs:145-151 | the distance obeys the triangle inequality on the torus |
| Grid.OffIsRowMajor | crates/empire-world/src/fairland.rs:143 | the offset of (x, y) is y * width + x |
| Rings.HexagonIter.Advance | crates/empire-world/src/fairland.rs:128-136 | one advance goes to the next point of the ring of radius n, and reports more exactly until the sixth side is done |
| Rings.RingClosesAfter6n | crates/empire-world/src/fairland.rs:123-137 | a ring of radius n takes exactly 6n steps and closes on its start |
| Rings.RingsAreTheBall | crates/empire-world/src/fairland.rs:345-363 | the rings of radius 1 to r with the centre are exactly the sectors within distance r, however they wrap and overlap |
| Bfs.RelaxKeeps | crates/empire-world/src/fairland.rs:410-423 | looking at one neighbour keeps the search invariant: it stores and queues a smaller distance, or marks a tie between landmasses as contested |
| Bfs.FinishedIsExact | crates/empire-world/src/fairland.rs:398-425 | when the queue is empty every distance is the least over all sources, and a tag is c exactly when all nearest sources are tagged c |
| WorldGen.Fairland.BfsInit | crates/empire-world/src/fairland.rs:382-387 | resets distances, tags and the ring buffer |
| WorldGen.Fairland.BfsEnqueue | crates/empire-world/src/fairland.rs:389-396 | stores tag and distance and appends the sector to the queue that the ring buffer holds; the buffer cannot overflow because no more sectors than exist are queued |
| WorldGen.Fairland.BfsDequeue | crates/empire-world/src/fairland.rs:401-404 | takes the oldest queued sector from the ring buffer, wrapping its head |
| WorldGen.Fairland.BfsRunQueue | crates/empire-world/src/fairland.rs:398-425 | empties the queue; distances are then exact for the sources, and tags too if the search started from a blank field |
| WorldGen.Fairland.IsCoastal | crates/empire-world/src/fairland.rs:247-249 | a land sector is coastal exactly when one of its six neighbours is sea |
| WorldGen.Fairland.BfsEnqueueIsland | crates/empire-world/src/fairland.rs:427-437 | queues each coastal sector of the landmass once, at distance 0 |
| WorldGen.Fairland.InitDistanceToCoast | crates/empire-world/src/fairland.rs:484-491 | every distance is the least distance to a coastal sector of any landmass, and closest is c exactly when all the nearest ones belong to c |
| WorldGen.Fairland.FindBorders | crates/empire-world/src/fairland.rs:445-466 | lists exactly the uncontested sectors beyond id + 1 from the coast that have a neighbour closest to another landmass, each once |
| WorldGen.Fairland.BfsEnqueueBorder | crates/empire-world/src/fairland.rs:439-472 | queues each border sector at distance id + 1 |
| WorldGen.Fairland.InitSpheresOfInfluence | crates/empire-world/src/fairland.rs:474-482 | the second search leaves exact distances for the coast and the borders together, which is the lesser of the coast distance and of id + 1 plus the distance to the nearest border; a sector it makes nearer is tagged c exactly when all its nearest borders are of c, any other keeps its tag exactly as long as no nearer neighbour the search reached disagrees |
| Overlay.OverIsExact | crates/empire-world/src/fairland.rs:398-425 | when a search over a finished one ends, a sector it made nearer is tagged c exactly when all its nearest sources are, and any other keeps its tag exactly unless a nearer neighbour the search reached disagrees |
| Coast.SphereDistance | crates/empire-world/src/fairland.rs:398-425 | after the second search a distance is the lesser of the coast distance and of id + 1 plus the distance to the nearest border, although the search is cut off at sectors already nearer |
| WorldGen.Fairland.XzoneAroundSector | crates/empire-world/src/fairland.rs:345-363 | marks exactly the sectors within the distance: free ones for c, those of others as contested |
| WorldGen.Fairland.XzoneAroundIsland | crates/empire-world/src/fairland.rs:365-370 | marks the exclusion zones of all sectors of a landmass |
| WorldGen.Fairland.XzoneInit | crates/empire-world/src/fairland.rs:372-378 | rebuilds the zones: each sea sector is marked for the one landmass among the first n that has a sector within id, contested if there are several, free if none; each land sector likewise, by the order in which landmasses are marked |
| WorldGen.Fairland.AdjLandUpdate | crates/empire-world/src/fairland.rs:506-520 | sets or clears, in each of the six neighbours, just the bit that points back |
| WorldGen.Fairland.AddSector | crates/empire-world/src/fairland.rs:522-530 | adds one sector to a landmass and keeps ownership lists, counts, neighbour bits, connectedness, separation and zones |
| Land.AddKeeps | crates/empire-world/src/fairland.rs:522-530 | adding a sector next to a landmass keeps lists disjoint and in agreement with ownership, neighbour bits exact, and every landmass connected |
| Land.UndoKeeps | crates/empire-world/src/fairland.rs:699-709 | taking the last sector back off a landmass keeps the same |
| Land.CoastalIffBits | crates/empire-world/src/fairland.rs:247-249 | fewer than six neighbour bits means just that some neighbour is sea |
| Land.AddKeepsSeparated | crates/empire-world/src/fairland.rs:522-530 | a sector added where the zones allow keeps continents more than di apart, and with distinct islands every island sector more than id from all other landmasses |
| Land.RemoveSeparates | crates/empire-world/src/fairland.rs:699-709 | removing a sector keeps all landmasses separated |
| WorldGen.Fairland.GrowWeight | crates/empire-world/src/fairland.rs:532-537 | a free neighbour weighs nothing exactly when it has no land around it, seven bits, or all six in spike mode |
| WorldGen.Fairland.GrowWeightOrders | crates/empire-world/src/fairland.rs:532-537 | the more land around a sector the more it weighs, with the cube of how much; for a spike the less the more, with the square of how much sea there is |
| WorldGen.Fairland.PickSector | crates/empire-world/src/fairland.rs:548-569 | picks among the free sectors next to the landmass where it may grow, each weighed once, by the running total of their weights; none only when no such sector has positive weight |
| Choice.ShareIs | crates/empire-world/src/fairland.rs:617-633 | what share of all falls of the dice chooses each thing, when running totals count some weights only in part |
| Choice.ProportionateIff | crates/empire-world/src/fairland.rs:617-633 | the shares are in proportion to the weights exactly when everything after the first counts in full |
| Choice.ChosenByWeight | crates/empire-world/src/fairland.rs:548-569 | replacing the choice when a roll below the running total is below the weight: the falls of the dice that choose a sector are in proportion to its weight |
| Choice.ChosenIsAt | crates/empire-world/src/fairland.rs:548-569 | what the rolls of an actual run choose is what those falls of the dice choose |
| Choice.SurelyReplacesIff | crates/empire-world/src/fairland.rs:625-633 | a site replaces what was chosen before for every roll exactly if it weighs no less than the running total |
| WorldGen.Fairland.GrowOneSector | crates/empire-world/src/fairland.rs:539-577 | rolls the shape, adds the sector so chosen, or changes no land and there is none; what is closed to growth stays closed |
| WorldGen.Fairland.StartContinent | crates/empire-world/src/fairland.rs:583-593 | adds the capital and the sector two to its right, and fails exactly when one of the two cannot be grown at |
| WorldGen.Fairland.GrowContinents | crates/empire-world/src/fairland.rs:579-610 | true only if every continent has exactly sc sectors, the first two being its capital's; false only if some continent has no room for its capital or, still too small, nowhere to grow; all growth invariants hold either way |
| WorldGen.Fairland.PickSite | crates/empire-world/src/fairland.rs:617-633 | weighs every site beyond id from the coast in the island's own sphere once, by the square of how far beyond; the running total counts of it only up to about a third of the island's size; none only if there is no such site |
| WorldGen.Fairland.PlaceIsland | crates/empire-world/src/fairland.rs:612-641 | starts an island on the site so chosen, or leaves everything and there is none |
| WorldGen.Fairland.RollSizes | crates/empire-world/src/fairland.rs:643-654 | rolled sizes sum to exactly n * is for any rolls, each from 1 to 2 * is - 1 |
| WorldGen.Fairland.SizeIslands | crates/empire-world/src/fairland.rs:643-657 | sizes in descending order, each from 1 to 2 * is - 1, with the same exact sum, so that the final lower bound of 1 changes nothing |
| Sums.SortKeeps | crates/empire-world/src/fairland.rs:655 | sorting in descending order keeps the elements |
| WorldGen.Fairland.TrimBatch | crates/empire-world/src/fairland.rs:697-711 | takes the extra sector off those islands of the batch that got one, so that all have the same size |
| WorldGen.Fairland.GrowBatch | crates/empire-world/src/fairland.rs:688-711 | all islands of a batch end with one common size between 1 and the size asked for |
| WorldGen.Fairland.IslandBatch | crates/empire-world/src/fairland.rs:669-720 | one batch extends the batches grown so far by nc islands of one size, and leaves the continents alone; fails only at an island for which there is no place |
| WorldGen.Fairland.GrowIslands | crates/empire-world/src/fairland.rs:659-735 | on success every batch has one common size from 1 to 2 * is, the carry is not negative, and the island sectors number is * ni - carry * nc, as printed; on failure there is an island without a place |
| Batches.BatchesAmountTo | crates/empire-world/src/fairland.rs:722-732 | sizes and carry that add up to the average leave the total short by the carry for each continent |
| WorldGen.Fairland.Iso | crates/empire-world/src/fairland.rs:268-276 | the distance to the nearest other capital |
| WorldGen.Fairland.DriftCapital | crates/empire-world/src/fairland.rs:278-297 | a capital goes one step to a place that isolates it no worse, and stays only if all six neighbours are worse; the least distance between any two capitals does not drop |
| Capitals.MoveKeepsSpread | crates/empire-world/src/fairland.rs:278-297 | moving a capital to where it is at least as isolated brings no two capitals closer than the closest pair was |
| WorldGen.Fairland.PlaceCapitals | crates/empire-world/src/fairland.rs:321-326 | capital i starts at sector number 2i, counted row by row |
| WorldGen.Fairland.Drift | crates/empire-world/src/fairland.rs:318-336 | the drift is a run of such turns from the even start; it ends early exactly before the first turn that finds the largest isolation the same as the four turns before; across it the least distance between capitals never drops |
| Elevation.SeaBall | crates/empire-world/src/fairland.rs:749-755 | land is no nearer to a sea sector than its distance to the coast |
| Elevation.LandBall | crates/empire-world/src/fairland.rs:749-755 | sea is farther from a land sector than its distance to the coast |
| Elevation.RollStaysPure | crates/empire-world/src/fairland.rs:749-755 | whatever radius is rolled, its rings stay on the centre's side of the coast |
| WorldGen.Fairland.MoveRing | crates/empire-world/src/fairland.rs:759-770 | the ring at distance d moves by the amount once for each time the walk meets a sector, nothing else moves, and no sector crosses zero |
| WorldGen.Fairland.Strike | crates/empire-world/src/fairland.rs:745-771 | one blow of a radius the centre's side allows moves every sector by exactly its rings' shares, and nothing beyond its radius |
| WorldGen.Fairland.ElevatePrep | crates/empire-world/src/fairland.rs:739-772 | for all dice: exactly a run of 8 such blows per sector slot, which never raises a sea sector and never lowers a land sector |
| Elevation.HeightBounds | crates/empire-world/src/fairland.rs:801-818 | plains get heights from 1 to 97 and mountains from 98 to 127 |
| Elevation.HeightMono | crates/empire-world/src/fairland.rs:801-818 | heights rise with the place in the order |
| Elevation.SortedDistinct | crates/empire-world/src/fairland.rs:793-799 | ordering by height, then offset, keeps the sectors, each once |
| WorldGen.Fairland.ElevateIsland | crates/empire-world/src/fairland.rs:779-819 | a landmass's sectors in the order of their walk heights get the heights of their places; the capital's two get the plateau height |
| WorldGen.Fairland.ElevateLand | crates/empire-world/src/fairland.rs:774-820 | every landmass is profiled so, all land has heights from 1 to 127, and the sea is untouched |
| WorldGen.Fairland.ElevateSea | crates/empire-world/src/fairland.rs:822-830 | every depth is scaled by 126 over the deepest, the deepest to -127, and nothing above zero changes |
| Elevation.DepthIsShare | crates/empire-world/src/fairland.rs:825-829 | the scaled depth is the whole part of the proportional one, and the order of depths is kept |
| Elevation.DepthBounds | crates/empire-world/src/fairland.rs:825-829 | the scaled depth is between -127 and -1 |
| WorldGen.Fairland.CreateElevations | crates/empire-world/src/fairland.rs:832-846 | afterwards a sector is typed sea exactly when no landmass owns it, and heights are within -127..127 |
| WorldGen.Fairland.MapShowsSea | crates/empire-world/src/fairland.rs:848-880 | the map shows a dot exactly for sea, and the arm for raised sea is never taken |
| Resources.Interpolates | crates/empire-world/src/fairland.rs:108-118 | a resource lies between those of the two break-points around the height and never needs clamping |
| Resources.MeetsBreakPoints | crates/empire-world/src/fairland.rs:78-106 | at every break-point the table's own value comes out |
| WorldGen.Fairland.BuildSectors | crates/empire-world/src/fairland.rs:883-934 | one record for every sector and none twice, with type, coast, territory, height and resources as they are |
| WorldGen.Fairland.Generate | crates/empire-world/src/main.rs:160-182 | an attempt that succeeds leaves full, connected, disjoint, separated landmasses, islands short of the target by exactly the carry, and every sector stored as sea exactly if unowned; one that fails has a continent without room or an island without a place |
| WorldGen.Create | crates/empire-world/src/main.rs:156-191 | tries up to ten times with fresh dice; the world it returns is one of a successful attempt, with the parameters asked for; every attempt that failed has a continent without room or an island without a place, and all ten failed if there is no world |
| Game.MCostInterpolates | crates/empire-types/src/sector_chr.rs:255-262 | the cost of entry goes in a straight line from that of an unbuilt sector to that of a full one; only a full highway needs the lower bound of 0.001 |
| Game.BuildCoordMap | crates/empire-server/src/update.rs:330-332 | every sector is found by its coordinates and nothing else is |
| Dijkstra.RelaxKeeps | crates/empire-server/src/update.rs:1441-1456 | storing and queueing a cheaper cost keeps the search invariant |
| Dijkstra.PopKeeps | crates/empire-server/src/update.rs:1438-1439 | taking any entry, outdated or not, keeps it |
| Dijkstra.DijkstraDist | crates/empire-server/src/update.rs:1416-1461 | ends; the sectors with a cost are exactly those reachable through passable sectors of the owner, and each cost is the least over all routes |
| Dijkstra.LeastCostsAreUnique | crates/empire-server/src/update.rs:1416-1461 | there is only one such result, in whatever order equal entries are taken |
| Haulage.HaulIsGreatest | crates/empire-server/src/update.rs:1371-1380 | the amount carried is the greatest, up to what is wanted, that the mobility pays for |
| Haulage.ChargeIs | crates/empire-server/src/update.rs:1371-1380 | the charge is the whole part of the full cost, or all the mobility if that is less; nothing exactly when the full cost is below a point or there is no mobility |
| Shipments.ShipmentKeeps | crates/empire-server/src/update.rs:1388-1394 | no addition of a fitting shipment saturates, and no stock is overdrawn or newly above the limit |
| Shipments.ShipmentConserves | crates/empire-server/src/update.rs:1388-1394 | a shipment changes no nation's total and no total of the world |
| Shipments.OutgoingFits | crates/empire-server/src/update.rs:1363-1394 | an outgoing shipment leaves the threshold, and stops only there, at a full destination or for want of mobility |
| Shipments.IncomingFits | crates/empire-server/src/update.rs:1552-1584 | an incoming shipment never passes the threshold, and stops only there, at an empty centre, when full or for want of mobility |
| Shipments.SurplusIs | crates/empire-server/src/update.rs:1363 | the 16-bit surplus is positive exactly as long as the difference fits |
| Shipments.SendsAtLeastIff | crates/empire-server/src/update.rs:1363-1394 | at least d is sent exactly when the surplus is that much and fits 16 bits, the destination has room for d and mobility pays for it |
| Shipments.OverdrawnIff | crates/empire-server/src/update.rs:1363-1394 | more is sent than there is exactly when the threshold is negative, the surplus fits 16 bits, the destination has room for more than the stock, and mobility pays for it |
| Shipments.EmptySectorOverdraws | crates/empire-server/src/update.rs:1363-1394 | a sector without any stock, but a negative threshold and mobility, overdraws |
| Shipments.OverdrawnIsNegative | crates/empire-server/src/update.rs:1388-1394 | such a shipment leaves a negative stock |
| Shipments.OutgoingCharge | crates/empire-server/src/update.rs:1371-1394 | an outgoing shipment is charged for all of the surplus that mobility pays for, whatever the room at the destination |
| Shipments.IncomingCharge | crates/empire-server/src/update.rs:1562-1584 | an incoming shipment likewise, for the lesser of the deficit and what the centre has |
| Delivery.DeliveryKeeps | crates/empire-server/src/update.rs:1342-1405 | over all deliveries no total changes, no stock goes below zero or newly above the limit, mobility is only spent while there is some, and everybody keeps the threshold or what there was |
| Delivery.DoDeliver | crates/empire-server/src/update.rs:1342-1405 | the sectors deliver in turn, item by item |
| Distribution.GroupKeeps | crates/empire-server/src/update.rs:1489-1594 | in a group only members and the centre change, and every other member ends between its stock and its threshold |
| Distribution.CollectGroups | crates/empire-server/src/update.rs:1470-1480 | sectors with any threshold are grouped by owner and centre, completely, each member once and in order |
| Distribution.RunGroup | crates/empire-server/src/update.rs:1483-1594 | a group exports, then imports, going by the least costs from its centre; nothing happens without a centre |
| Distribution.DistributionKeeps | crates/empire-server/src/update.rs:1463-1596 | for any order of the groups: no total changes, stocks and mobility stay in bounds, and a sector that is nobody's centre ends between its stock and its threshold |
| Distribution.CentrePassesIff | crates/empire-server/src/update.rs:1489-1533 | an export leaves the centre above its own threshold exactly when the member has a threshold and a surplus of what the centre lacks to pass it, and room and mobility allow as much |
| Distribution.FullCentrePasses | crates/empire-server/src/update.rs:1489-1533 | a centre that just has its threshold passes it by an export of a member with mobility |
| Distribution.DoDistribute | crates/empire-server/src/update.rs:1463-1596 | runs every group exactly once |
| Ledger.PostBalances | crates/empire-server/src/update.rs:955-977 | what is booked on a line explains the change of the balance |
| Ledger.ChargeUnbalances | crates/empire-server/src/update.rs:1127 | a charge without a line leaves the lines short by just its amount |
| Ledger.EstimateTreasury | crates/empire-server/src/commands/budget_cmd.rs:96-178 | the forecast is the balance forward plus all lines, whichever of them are skipped as zero |
| Rounding.RoundsWithin | crates/empire-server/src/update.rs:1727-1731 | no outcome of the random rounding leaves the whole bounds of its argument |
| Rounding.RoundAvg | crates/empire-server/src/update.rs:1727-1731 | any outcome: rounded down, or up if there is a positive fraction |
| Products.ProductsAreSound | crates/empire-types/src/product_chr.rs:94-233 | no product takes people, takes an input twice, or takes what it makes; amounts are positive |
| Construction.BuildEffKeeps | crates/empire-server/src/update.rs:1077-1109 | a sector gets its new type exactly when all its efficiency can be torn down, then builds from nothing; the available work is unchanged |
| Construction.EnlistKeeps | crates/empire-server/src/update.rs:1111-1128 | each recruit was a civilian and costs the balance 3 that no line records |
| Production.ProdMaterialsLimit | crates/empire-server/src/update.rs:1225-1233 | the least number of batches over all inputs |
| Production.BatchesIsGreatest | crates/empire-server/src/update.rs:1225-1233 | that limit is the greatest count, up to 9999, that takes no more of any input than there is |
| Production.InputsSuffice | crates/empire-server/src/update.rs:1225-1233 | batches within the limit take no more of any input than there is |
| Production.ConsumedExactly | crates/empire-server/src/update.rs:1252-1261 | each input shrinks by just what is used of it and stays non-negative |
| Production.WorkSuffices | crates/empire-server/src/update.rs:1217-1220 | the work used never exceeds the work available, so its lower bound is never needed |
| Production.ResourceSuffices | crates/empire-server/src/update.rs:1263-1278 | the natural resource is never overdrawn |
| Production.MakeProduct | crates/empire-server/src/update.rs:1174-1223 | output, inputs, work and natural resource change by exactly what was made, for any rounding |
| Industry.OutcomeIsBooked | crates/empire-server/src/update.rs:1132-1154 | production books all it costs and leaves the soldiers alone |
| Industry.ProduceSector | crates/empire-server/src/update.rs:1031-1072 | one sector: maintenance, building, recruiting, and production of what its type was before building |
| Industry.OutcomeKeeps | crates/empire-server/src/update.rs:1031-1072 | the sector stays well-formed, changes type only when torn down, and only recruits' pay goes unrecorded |
| Industry.RedesignatedMakesOld | crates/empire-server/src/update.rs:1052-1071 | a sector that changes type in an update produces what its old type makes, once rebuilt to 60%, and nothing else |
| Industry.RedesignatedMineDigs | crates/empire-server/src/update.rs:1052-1071 | a mine that becomes a farm still digs |
| Industry.ProductionKeeps | crates/empire-server/src/update.rs:1014-1074 | over all sectors: well-formed, in place, same owners, and each balance misses exactly the pay of its recruits |
| Industry.ProduceSects | crates/empire-server/src/update.rs:1014-1074 | every owned land sector is produced in turn, on its owner's account |
| Populace.WorkFits | crates/empire-server/src/update.rs:912-917 | no outcome of the work calculation overflows 16 bits |
| Populace.DoFeed | crates/empire-server/src/update.rs:1285-1334 | feeds, or starves, the population just as specified, whatever the rates |
| Populace.BirthsKeptIff | crates/empire-server/src/update.rs:1309-1314 | where food is plenty, the births add to the population exactly as long as their number fits 16 bits, or wraps to a number that still fills the stock |
| Populace.BirthsWrap | crates/empire-server/src/update.rs:1309-1314 | a thousand civilians with a birth rate of 0.4 become -24536 |
| Populace.FedKeeps | crates/empire-server/src/update.rs:1285-1334 | soldiers are untouched, food never grows, nobody dies while food is left, and at most half, rounded up, starve |
| Populace.SettledKeeps | crates/empire-server/src/update.rs:983-996 | people beyond the limit leave, and a sector is given up only without civilians and soldiers |
| Populace.TaxedBalances | crates/empire-server/src/update.rs:946-978 | taxes, payroll and bank income are all recorded |
| Populace.PreparationKeeps | crates/empire-server/src/update.rs:921-999 | over all sectors: well-formed, in place, and everything booked |
| Populace.PrepareSects | crates/empire-server/src/update.rs:921-999 | every land sector is prepared in turn, on its owner's account |
| Populace.ReserveIsBooked | crates/empire-server/src/update.rs:1001-1010 | reserve pay is recorded |
| Repair.MaterialsSuffice | crates/empire-server/src/update.rs:565-585 | the stock covers the materials, however they are rounded |
| Repair.LabourSuffices | crates/empire-server/src/update.rs:587-594 | the available work covers the labour, however it is rounded |
| Repair.RepairUnit | crates/empire-server/src/update.rs:551-604 | a unit grows by what work, limit and materials allow, never above 100%; the sector had all that was taken |
| Repair.RepairKeeps | crates/empire-server/src/update.rs:521-606 | however many units share a sector, none takes what is not there, and all that is paid is booked |
| Repair.ProdUnits | crates/empire-server/src/update.rs:521-755 | every unfinished ship, plane or land unit has its turn |
| Ocean.BedSuffices | crates/empire-server/src/update.rs:803-822 | whatever a ship drills, the sea bed has it, and its lower bound is never needed |
| Ocean.OilIsKept | crates/empire-server/src/update.rs:815-818 | a ship takes all the oil it drills and has room for; the cast to 16 bits never loses any |
| Ocean.FishAreKeptIff | crates/empire-server/src/update.rs:829-841 | for all dice a ship takes all the fish it catches and has room for, exactly when both outcomes of rounding the catch fit 16 bits or still fill the room after the cast |
| Ocean.BoatLosesCatch | crates/empire-server/src/update.rs:829-841 | a full fishing boat on the best ground catches too many for 16 bits in 1200 time units and comes back empty |
| Ocean.CatchAt | crates/empire-server/src/update.rs:793-841 | oil and fish of one ship, for all dice |
| Ocean.SeaRunKeeps | crates/empire-server/src/update.rs:769-844 | however many ships share a place, only the oil of sea beds shrinks, and ships gain oil and food within what they hold |
| Ocean.OilBalances | crates/empire-server/src/update.rs:769-844 | at every place the oil gained comes out of the sea bed, ten barrels to a part, up to rounding |
| Ocean.ShipProduceOcean | crates/empire-server/src/update.rs:769-844 | every ship has its turn |
| Nations.LimitBounds | crates/empire-server/src/update.rs:1660-1678 | whatever the logarithm, the easy part counts in full and at most 250 above it |
| Nations.AverageNeverRaised | crates/empire-server/src/update.rs:1660-1678 | limiting an average never raises it |
| Nations.SumRaisedIff | crates/empire-server/src/update.rs:1660-1678 | the limit on technology and research raises a level exactly between the easy part and where the logarithm of any base meets its argument above it |
| Nations.BaseTwoRaises | crates/empire-server/src/update.rs:1660-1678 | with base 2 those are the levels less than a point above the easy part |
| Nations.SumNeverRaised | crates/empire-server/src/update.rs:1660-1678 | with a logarithm that is flat enough at the easy part no level is raised |
| Nations.MeanBetween | crates/empire-server/src/update.rs:1638-1641 | a moving average lies between what it averages |
| Nations.WithLevelsKeeps | crates/empire-server/src/update.rs:1614-1656 | technology and research never shrink in production and gain a bounded amount; happiness and education stay within bounds |
| Nations.ProdNat | crates/empire-server/src/update.rs:1614-1656 | every nation that takes part gets its levels and its balance as treasury |
| Nations.DecayedIff | crates/empire-server/src/update.rs:1702-1706 | a level decays to something from 0 to what it was exactly if the update has at most 100 level_age_rate time units |
| Nations.AgedKeeps | crates/empire-server/src/update.rs:1688-1723 | ageing lifts no level above what it was or a fifth of the best, and reserves only shrink |
| Nations.BestNeverRises | crates/empire-server/src/update.rs:1688-1723 | catching up makes no new best |
| Nations.AgeLevels | crates/empire-server/src/update.rs:1688-1723 | all nations age, measured against the best before ageing |
| Mobility.AccrualsAre | crates/empire-server/src/update.rs:864-889 | after any number of updates mobility is what it would have grown to, up to the limit |
| Mobility.AccruedLosesIff | crates/empire-server/src/update.rs:864-889 | mobility is lost exactly where it exceeds the limit |
| Mobility.MobIncSects | crates/empire-server/src/update.rs:864-871 | owned land, sanctuaries excepted, gains mobility |
| Mobility.MobIncUnits | crates/empire-server/src/update.rs:873-889 | owned units gain mobility |
| Tick.TickKeeps | crates/empire-server/src/update.rs:297-355 | all phases on sectors and units, for all dice and group orders: every sector well-formed and in place, leftover work capped, and each balance missing exactly 3 for each soldier gained |
| Tick.UpdateKeeps | crates/empire-server/src/update.rs:297-386 | a whole update leaves sectors, units and nations as the next one wants them, mobility included; money - start_money is the sum of all lines less 3 per new soldier, and that balance is the new treasury |
| Tick.Update | crates/empire-server/src/update.rs:297-386 | the update is such an update, from the nations' treasuries |
| Tick.UpdatesKeep | crates/empire-server/src/update.rs:200-250 | over any number of updates, for all dice, sectors, units and nations stay within their bounds, sectors where they are, and mobility within its limits |
| Tick.MovesKeep | crates/empire-server/src/update.rs:325-333 | delivery and distribution together change no total, overdraw or overfill no stock, and spend only mobility there is |
| Tick.BudgetPreview | crates/empire-server/src/commands/budget_cmd.rs:60-178 | the previewed treasury exceeds the balance of the same simulation by exactly the pay of its recruits |
| Tick.FinishSects | crates/empire-server/src/update.rs:1600-1608 | leftover work is capped at 1000 |
| Schedule.SmallestIsUnique | crates/empire-config/src/rdsched.rs:49-71 | the max smallest times of a set are one definite list |
| Schedule.InsertKeeps | crates/empire-config/src/rdsched.rs:273-295 | insertion keeps the max smallest of all times offered |
| Schedule.InsertedIndex | crates/empire-config/src/rdsched.rs:269-295 | the index is below max exactly when the time is in the list, and then where; otherwise the list is unchanged and the time has passed or is beyond a full list |
| Schedule.Reader.InsertUpdate | crates/empire-config/src/rdsched.rs:273-295 | inserts in place |
| Schedule.RemovedValid | crates/empire-config/src/rdsched.rs:298-302 | a skip removes exactly its time |
| Schedule.LoopEnds | crates/empire-config/src/rdsched.rs:124-139 | with a positive interval the loop ends within max + 1 turns |
| Schedule.EndlessIff | crates/empire-config/src/rdsched.rs:124-139 | the loop never ends exactly when the interval is zero, the anchor lies ahead and not past the end, and fewer than max times are earlier |
| Schedule.EveryKeeps | crates/empire-config/src/rdsched.rs:103-140 | a repetition leaves the max smallest of what was offered before and its whole progression, which is empty if its first time has passed |
| Schedule.NextIsFirst | crates/empire-config/src/rdsched.rs:221-250 | "next" is the first such weekday after the anchor's day, at the given or the anchor's time |
| Schedule.Reader.ParseEvery | crates/empire-config/src/rdsched.rs:103-140 | runs the repetition, and says whether it ends |
| Schedule.OfferedIsWanted | crates/empire-config/src/rdsched.rs:49-101 | without skips all times offered are wanted, and no skip does harm |
| Schedule.ScheduleIsSmallest | crates/empire-config/src/rdsched.rs:49-101 | without skips the schedule is the max smallest of all times the file offers |
| Schedule.ScheduleIsValid | crates/empire-config/src/rdsched.rs:49-101 | with any directives it is strictly increasing, at most max long and ahead |
| Schedule.SkipKeepsIff | crates/empire-config/src/rdsched.rs:84-88 | a skip leaves the max smallest of the remaining times exactly when the skipped time was not in the list, or no wanted time beyond it had not fitted |
| Schedule.ScheduleWithSkips | crates/empire-config/src/rdsched.rs:49-101 | with skips, the list is the max smallest of the wanted times after every directive exactly when every skip was such a skip |
| Schedule.ScheduleOfKnown | crates/empire-config/src/rdsched.rs:49-101 | whatever the skips, the list is the max smallest of the times still known: the wanted ones but for those that had not fitted when a skip made room |
| Schedule.FinalIsSmallestIff | crates/empire-config/src/rdsched.rs:49-101 | the final list is the max smallest of the wanted times exactly when the list is full of earlier times before every wanted time that is no longer known |
| Schedule.SkipLeavesGap | crates/empire-config/src/rdsched.rs:84-88 | a file whose skip loses a time |
| Schedule.Reader.Read | crates/empire-config/src/rdsched.rs:49-71 | ends exactly if every repetition ends; the result is then the list the directives lead to, the max smallest of the known times, and of the wanted times if no skip does harm |
| Text.WordsOfJoin | crates/empire-db/src/xundump.rs:88 | words joined by spaces are split again |
| Text.LinesOfUnlines | crates/empire-db/src/xundump.rs:65-76 | lines are found again |
| Text.ParseShowInt | crates/empire-db/src/xundump.rs:113-117 | numbers are read back as printed |
| Text.ParseShowDecimal | crates/empire-db/src/xundump.rs:130-134 | a level printed with two decimals is read back rounded to hundredths, with its sign |
| Text.RoundingIsClose | crates/empire-db/src/xundump.rs:130-134 | the rounded level is within half a hundredth, and the same exactly for whole hundredths |
| Text.ShowsAgain | crates/empire-db/src/xundump.rs:130-134 | it prints again as before, as minus zero too |
| Dump.UnquoteQuote | crates/empire-db/src/xundump.rs:106-112 | a quoted string comes back with underscores as spaces |
| Dump.RereadIsSame | crates/empire-db/src/xdump.rs:226-232 | a string survives exactly when it has no underscore, a letter when it is neither a dash nor NUL |
| Dump.WriteDump | crates/empire-db/src/xdump.rs:45-72 | header, field names, one line for each record, slash and count |
| Dump.ParseRows | crates/empire-db/src/xundump.rs:83-103 | reads rows up to the slash, or fails at the first with a wrong number of fields |
| Dump.HeaderIsRead | crates/empire-db/src/xundump.rs:64-81 | kind and time are read back from the header |
| Dump.ParseDump | crates/empire-db/src/xundump.rs:64-103 | a dump of values that can be held parses, with as many rows as records |
| Getters.GetterFinds | crates/empire-db/src/xundump.rs:113-141 | each getter finds the value its field was written with |
| Getters.InventoryFromRow | crates/empire-db/src/xundump.rs:142-154 | fills the stocks column by column; missing columns stay zero |
| Getters.RestockedIsSame | crates/empire-db/src/xdump.rs:78-83 | stocks survive exactly when there is no oil and no uncompensated worker |
| Records.NationIsRestored | crates/empire-db/src/xundump.rs:184-204 | every dumped field of a nation is restored, the others are reset |
| Records.SectorRecordIsRestored | crates/empire-db/src/xundump.rs:206-225 | the same of a sector; its new type becomes its type |
| Records.ShipIsRestored | crates/empire-db/src/xundump.rs:227-242 | the same of a ship |
| Records.PlaneIsRestored | crates/empire-db/src/xundump.rs:244-257 | the same of a plane |
| Records.LandUnitIsRestored | crates/empire-db/src/xundump.rs:259-273 | the same of a land unit |
| Records.NukeIsRestored | crates/empire-db/src/xundump.rs:275-284 | the same of a nuke |
| Records.NationSurvives | crates/empire-db/src/xdump.rs:45-72 | exactly which of a nation's strings and levels survive |
| Records.SectorRecordSurvives | crates/empire-db/src/xdump.rs:77-105 | exactly when a sector's stocks survive |
| Records.ShipSurvives | crates/empire-db/src/xdump.rs:109-139 | exactly when a ship's letter, name and stocks survive |
| Records.PlaneSurvives | crates/empire-db/src/xdump.rs:143-163 | exactly when a plane's wing survives |
| Records.LandUnitSurvives | crates/empire-db/src/xdump.rs:167-194 | exactly when a land unit's army and stocks survive |
| Records.NukeSurvives | crates/empire-db/src/xdump.rs:198-214 | exactly when a nuke's stockpile survives |
| Archive.NationsRoundTrip | crates/empire-db/src/xundump.rs:295-300 | a dump of nations loads with every nation restored |
| Archive.SectorsRoundTrip | crates/empire-db/src/xundump.rs:301-306 | the same of sectors |
| Archive.ShipsRoundTrip | crates/empire-db/src/xundump.rs:307-312 | the same of ships |
| Archive.PlanesRoundTrip | crates/empire-db/src/xundump.rs:313-318 | the same of planes |
| Archive.LandUnitsRoundTrip | crates/empire-db/src/xundump.rs:319-324 | the same of land units |
| Archive.NukesRoundTrip | crates/empire-db/src/xundump.rs:325-330 | the same of nukes |
| Archive.NationsDumpAgain | crates/empire-db/src/xdump.rs:45-72 | dumping loaded nations gives the same text |
| Archive.SectorsDumpAgain | crates/empire-db/src/xdump.rs:77-105 | the same of sectors |
| Archive.ShipsDumpAgain | crates/empire-db/src/xdump.rs:109-139 | the same of ships |
| Archive.PlanesDumpAgain | crates/empire-db/src/xdump.rs:143-163 | the same of planes |
| Archive.LandUnitsDumpAgain | crates/empire-db/src/xdump.rs:167-194 | the same of land units |
| Archive.NukesDumpAgain | crates/empire-db/src/xdump.rs:198-214 | the same of nukes |
| Archive.LoadDump | crates/empire-db/src/xundump.rs:290-334 | reads a dump of any kind, storing rows up to the first bad one; answers how many, or that error |

## Left out

- Drift: that drift improves the spread is not claimed, only that it never worsens it; before four readings were taken, the numbers 0 to 3 with which the memory starts count as readings, as in the program.
- PlaceIsland: the choice among sites is stated with the weights and running totals of the program; as they differ, a site's share of the falls is that of ShareIs and not its weight. The running total is unbounded here, 32 bits in the program.
- Create: seeds are dice; writing to the database is left out.
- PopKeeps: the order of the heap is modelled (an entry of least key is taken), but no bound on the number of steps is claimed beyond termination.
- DistributionKeeps: a sector through which others distribute has no bound from its own threshold, because the program gives it none (CentrePassesIff says when an export passes it).
- DoFeed: births beyond 31 bits, which need more than 65535 babies a head in one update.
- UpdateKeeps: nations stay nations only up to 100 level_age_rate time units, as beyond that levels turn negative; with a rate of zero nothing ages. Whole updates are stated for 1 to 1000 time units and for birth rates that at most double a population; BirthsKeptIff and FishAreKeptIff say what comes of births and catches beyond.
- LimitLevel: the logarithm is any function; only where it matters is it required to behave like one.
- OilBalances: up to nine barrels for each ship, by which random rounding of the depletion can miss a tenth of the catch.
- UpdatesKeep: updates follow one another; what players command between them is not modelled.
- Update: reports by telegram and the database.
- ParseDecimal: accepts only numbers written with two decimals, as dumps write them; the program's parser of floating-point numbers accepts more. A half is rounded to the even neighbour, as the program rounds it. Infinite levels and what is not a number are left out.
- GetFlags: flags are whole numbers below a power of two, of which all defined bits are the lowest.
- Negative thresholds: the phases of an update are proved for sectors whose thresholds are not negative; single shipments are proved for all 16-bit thresholds.
- Sector fields that no phase touches (mines, plague, guerrillas, territory) are not part of the update's model; they are part of the dump's.
- Ship, plane and land unit tables: parameters that are not negative; capacities that fit 16 bits.
- The generation counter `cur_seen` is unbounded here, 32 bits in the program.
- Schedule file syntax, calendars, time zones and daylight saving: times are whole seconds and lines are directives already parsed; 64-bit overflow of times is not modelled.
- Database, network, telegrams, journal, reports as text, and command lines.
- Combat, market, loans and unit orders.
