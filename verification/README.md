# The aeronautics sizing core, modelled and proved in Dafny

This project models the transport-free sizing engine of the aeronautics calculator
(`aeronautics/calculator`) and the design codec beside it (`aeronautics/api`), and proves what
they promise. `dafny verify dfyconfig.toml` checks all of it.

The engine takes a fixed-wing design: drivers of a planform, flight cases, requirements, mass
components, a propulsion chain, a battery, auxiliary loads and a mission. It solves the wing,
intersects the requirements into bounds on area and mass, reports conflicts, judges every
requirement, accounts for mass and energy, and keeps an undoable session over it all.

## How the model is made

- A `float64` is a `real`. Square root, cosine, sine, pi and number formatting enter as a
  `Platform` value; `Platform.Lawful` says which of their properties the proofs use. A formatter
  need only tell representable numbers apart. The slack of a comparison is the constant
  `TOLERANCE`, and it appears in every property that depends on it.
- A value of the core is a datatype and an evaluation is a function returning `Outcome`: the value,
  or the kinds of the issues that withheld it, in the order the core finds them.
- What the core does step by step is a method over classes, arrays and loops, proved equal to the
  function that specifies it: the evaluation recorder, the result set of a solve, the accumulating
  bounds and budgets, list edits inside one backing array, the history slice of a session, the
  canonical writer, the decoder and the searches. The theorems are about the functions.
- A session is a state machine over its events (`SessionModel`), abstract in what an edit does. The
  class `Sessions.Session` keeps its history in a slice whose revisions are slices in turn, and each
  of its methods is proved to take exactly one step of that machine.

| file | module | what it holds |
|---|---|---|
| Reals, Quantities, Definition | Reals, Quantities, Roots, Definition | ordered-field lemmas, dimensioned quantities, the design |
| Lift, Planform, Wing, SolvableWings | Lift, Planforms, Wings, SolvableWings | the stall balance, the six solve modes, the two planes of a wing, when a wing solves |
| MassBalance, Electrical, Mission, FlightLaws | Recording, MassBalance, Electrical, PowerEquations, Missions, FlightLaws | the accounts of mass, moment, power and energy, and when a segment is flown |
| Sizing, Feasibility, StatedLimits, ConflictReports, SizingLaws | Sizing, Feasibility, StatedLimits, ConflictReports, SizingLaws | bounds, what the bounds mean, what a conflict names and offers, when sizing is accepted |
| Requirements, StatedChecks | Requirements, StatedChecks | checks, and what they say of the limits as stated |
| Keys, Lists, Commands, Editing, Edits, Revisions | Keys, Lists, Commands, Editing, EditEffects, Revisions | the closed command set, what each edit writes and keeps, as values and in place |
| SessionModel, DiffChecks, Assessments, Session | SessionModel, DiffChecks, Assessments, Sessions | runs, previews, history and acceptance |
| Sorting, Canonical, Snapshot, ReadBack, Reordering | Sorting, CanonicalText, Snapshots, SnapshotReadBack, Reordering | the canonical form and independence of list order |
| Parameters, ParameterValues, Sweep, PowerSearch, SweepLaws | Parameters, ParameterValues, Sweeps, PowerSearch, SweepLaws | the dependency order, what its edges mean, and the sampled searches |
| Units, Wire, WireCodec | Units, Conversions, WireEnums, WireCodec | the wire form and its round trip |

## Where the code and its description part

The model follows the code. These are proved, each with the condition under which the description
holds:

- A bound is read from the first requirement that states it, not the tightest
  (`aeronautics/calculator/sizing.go:323-342`), although the recorded form has no order. The requirement
  read is the same in every order exactly when at most one states the bound; the area bound it leads to
  is what all the stated limits allow exactly when the first pair is the tightest, or nothing is paired,
  or an area maximum binds below every pair. Otherwise a design no wing meets can go unreported.
- A component is added to the sums when its mass and position are supplied, and recorded only when the
  mass is positive and everything has its dimension (`aeronautics/calculator/mass.go:84-95`,
  `aeronautics/calculator/mass.go:305-320`). A negative mass, or one placed by a value that is not a
  length, is added and never recorded. Total and trace agree exactly when the unrecorded masses sum to
  zero; with every mass positive and every position stated, exactly when the balance is complete.
- A leg that makes no headway keeps its energy (`aeronautics/calculator/mission.go:698-738`), and then
  its missing distance withholds the mission's totals. A mission is computed exactly when some segment
  is costed and every costed one makes headway at its stated airspeed, climb and wind.
- A feasible pair of bounds is never reported, but bounds that cross by less than the tolerance are
  not reported either (`aeronautics/calculator/sizing.go:475-496`).
- Joined case names are not read back (`aeronautics/calculator/snapshot.go:310-312`): two requirements
  with different case lists can share a canonical form. Names that do not hold ", " are read back, save
  that an empty list reads as the single name "none".
- A sweep or a search may run downwards (`aeronautics/calculator/sweep.go:245-248`), although samples
  and candidates are described as ascending. They are strictly monotone either way, but a downward
  search names the upper end of its range low and the bracket above a run as the one below it.
- A required requirement in a preferred case counts in the combined status
  (`aeronautics/calculator/requirements.go:372-388`) but not in the bounds
  (`aeronautics/calculator/sizing.go:150-160`).
- Removing a case looks at requirements and not at the mission
  (`aeronautics/calculator/commands.go:316-332`): segments flown in it are left dangling, and only they.
- The encoder drops a mission that has neither a name nor a segment
  (`aeronautics/api/encode_power.go:145-159`), whatever reserve it states.

## Model

| member | source | states |
|---|---|---|
| Recording.Evaluation.Take | aeronautics/calculator/evaluate.go:36-57 | An input that must be positive is recorded when its dimension fits, one issue is noted per fault, and a rejected one continues as zero |
| Recording.Evaluation.TakeSigned | aeronautics/calculator/evaluate.go:64-84 | The same for an input whose sign and zero are meaningful |
| Recording.AnEvaluationSucceedsExactlyOnAcceptedInputs | aeronautics/calculator/evaluate.go:36-201 | Whatever its inputs, an evaluation succeeds if and only if each one was accepted and its result has a permitted sign; its trace then lists exactly those inputs in order, and otherwise it reports one issue per rejected input |
| Lift.StallSpeedBalances | aeronautics/calculator/lift.go:63-71 | The stall speed exists and is the speed at which weight and lift balance |
| Lift.MinimumWingAreaBalances | aeronautics/calculator/lift.go:75-83 | The minimum area balances weight and lift at the limit speed |
| Lift.MaximumMassBalances | aeronautics/calculator/lift.go:88-96 | The maximum mass balances weight and lift at the limit speed |
| Lift.StallCeilingHasThreeForms | aeronautics/calculator/lift.go:63-96 | For every case, mass, area and limit the three functions agree: stalling no faster than the limit is having at least the minimum area is weighing at most the maximum mass, with equality at the minimum area |
| Planforms.ComputePlanform | aeronautics/calculator/geometry.go:192-219 | The staged solve, which stops after the first stage with an issue, computes the specification the planform theorems are about |
| Planforms.TakeTaper | aeronautics/calculator/geometry.go:222-258 | The taper ratio of the shape, or the one issue that withholds it, zero being carried on |
| Planforms.TakeMode | aeronautics/calculator/geometry.go:284-303 | Exactly two drivers select a path; fewer are missing; more are redundant or conflicting |
| Planforms.TakeSize | aeronautics/calculator/geometry.go:396-417 | The named path down to span and area, every failure recorded |
| Planforms.TakeRest | aeronautics/calculator/geometry.go:421-439 | The remaining dimensions, a driver keeping the builder's number, nothing derived from a rejected value |
| Planforms.SolvedPlanformIsTrapezoid | aeronautics/calculator/geometry.go:192-219 | In each of the six modes the solved dimensions satisfy A*S = b^2, 2S = b*c*(1+taper) and the tip, mean, MAC and station relations, and agree with both drivers |
| Planforms.SolvesExactlyWellFormedDrivers | aeronautics/calculator/geometry.go:192-303 | A planform solves if and only if the taper fits the shape and exactly two drivers, all positive in their dimensions, were given |
| Planforms.TrapezoidIsDetermined | aeronautics/calculator/geometry.go:421-439 | Span, area and taper determine every other dimension |
| Planforms.PairFitsOneSize | aeronautics/calculator/geometry.go:396-417 | Any two or more drivers at a taper fit at most one span and area |
| Planforms.ResolvingFromAnyPairReturnsThePlanform | aeronautics/calculator/geometry.go:396-523 | Driver interchange: solving again from any supported pair of the solved values returns the same planform |
| Planforms.ConsistentDriversAreNeverConflicting | aeronautics/calculator/geometry.go:329-392 | Over-determined drivers that are all true of one size are reported as redundant, never as conflicting |
| Planforms.ReportedConflictFitsNoSize | aeronautics/calculator/geometry.go:329-392 | Drivers reported as conflicting are true of no size at all |
| SolvableWings.OverDeterminationIsExact | aeronautics/calculator/geometry.go:329-392 | Three or four positive drivers are redundant if and only if the others agree, to one part in a million, with the size the reference pair fixes (A*S with b^2, c*b*(1+taper) with 2S), and otherwise conflicting |
| Planforms.MacIsAtLeastTheMeanChord | aeronautics/calculator/geometry.go:504-516 | The mean aerodynamic chord is never shorter than the mean chord, and equals it exactly on a rectangle |
| Wings.ComputeWing | aeronautics/calculator/wing.go:179-218 | The staged wing solve computes the specification the wing theorems are about, all issues of a stage included |
| Wings.ValidateChoices | aeronautics/calculator/wing.go:221-285 | Every recorded choice out of its supported range is reported, in order |
| Wings.TakePlanes | aeronautics/calculator/wing.go:288-327 | The planform in both planes, an unstated dihedral mode being refused only under a dihedral |
| Wings.PlanViewIsThePanelForeshortened | aeronautics/calculator/wing.go:288-327 | Plan view and panel plane are one wing through a cosine in (0, 1], the given plane keeps the drivers' span and area, and the projected aspect ratio is b^2/S of the plan view |
| Wings.ExposedAreaIsTheOutboardPanels | aeronautics/calculator/wing.go:388-405 | The exposed area is the area of the two panels outside the body, and the body is strictly narrower than the span |
| Wings.SolvedExposedArea | aeronautics/calculator/wing.go:332-338 | The same of every solved wing with a body width, although the root chord is the panel's and the span the plan view's |
| SolvableWings.AWingSolvesExactly | aeronautics/calculator/wing.go:179-285 | A wing solves if and only if its area basis, its four angles (60 or 15 degrees either way), its sweep reference and its airfoils stand, exactly two drivers are stated and positive with a taper its shape takes, the dihedral mode is stated under a dihedral, and the body, if any, is narrower than the plan-view span |
| SolvableWings.BothPlanesAreTrapezoids | aeronautics/calculator/wing.go:288-350 | In both planes of a solved wing twice the half is the span, the station is where the mean aerodynamic chord sits, and the area is the trapezoid's on the shared chords |
| MassBalance.ComputeBalance | aeronautics/calculator/mass.go:218-288 | The loop over the components, its recorders and its division compute the balance |
| MassBalance.SumOf | aeronautics/calculator/mass.go:326-334 | A sum adds every contributing component's reading |
| MassBalance.ABalanceIsComputedExactly | aeronautics/calculator/mass.go:218-288 | A balance is computed if and only if some component states a positive mass and three lengths and the masses placed come to something; the total is theirs, each CG coordinate times it is their moment, and it is complete if and only if every listed component is weighed and placed |
| MassBalance.ContributionsShowTheirMoments | aeronautics/calculator/mass.go:352-390 | Each component is shown with its three moments if and only if it states a positive mass and three lengths |
| MassBalance.RecordedIsAdded | aeronautics/calculator/mass.go:218-320 | With positive, rightly dimensioned masses, what the traces record is what the sums add |
| MassBalance.SumIsRecordedAndUnrecorded | aeronautics/calculator/mass.go:218-334 | Of every inventory, the mass sum and each moment sum are what their trace records plus what contributing but unknown components add |
| MassBalance.UnrecordedMassHasASign | aeronautics/calculator/mass.go:84-95 | In the right dimensions the unrecorded mass is never positive, and zero exactly without negative masses; without negative masses it is never negative, and zero exactly when whatever weighs something is rightly dimensioned |
| MassBalance.TotalMatchesItsTraceExactlyWhenNothingIsUnrecorded | aeronautics/calculator/mass.go:234-266 | The computed total equals the sum of its own trace if and only if the unrecorded masses sum to zero |
| MassBalance.TotalMatchesItsTraceExactlyOnASoundInventory | aeronautics/calculator/mass.go:84-95 | Without negative masses that is: whatever weighs something states its mass and position in the right dimensions; in the right dimensions: no mass is negative; with every mass positive and every position stated: the balance is complete |
| MassBalance.MomentIsRecordedAndUnrecorded | aeronautics/calculator/mass.go:257-288 | Of every inventory, CG times total is the recorded moments plus the unrecorded ones on each axis |
| MassBalance.NegativeMassIsAddedButNotRecorded | aeronautics/calculator/mass.go:84-95 | A concrete inventory whose total and trace differ: a negative mass contributes to the sum and is never recorded |
| MassBalance.MisplacedMassIsAddedButNotRecorded | aeronautics/calculator/mass.go:352-390 | A second one: a positive mass with a coordinate of another dimension is added to the total and never recorded |
| MassBalance.BalanceConservesMassAndMoment | aeronautics/calculator/mass.go:257-288 | The total is the sum of the recorded masses, and on each axis CG times total is the sum of the recorded moments |
| MassBalance.CenterOfGravityLiesBetweenTheExtremes | aeronautics/calculator/mass.go:394-406 | On every axis some contributing component lies at or behind the CG and some at or ahead of it |
| MassBalance.PlacingKeepsTheTotalAndShiftsTheBalance | aeronautics/calculator/commands.go:673-697 | Moving a component that already contributes keeps the total and shifts each CG coordinate by m*move/total |
| MassBalance.AMassIsReadExactlyWhenItIsEstablished | aeronautics/calculator/mass.go:433-456 | A mass is read if and only if it is entered, or, from the components, the inventory is not empty and every component states a positive mass and three lengths; it is then the entered mass, or the plain sum over every listed component |
| Sizing.Intersect | aeronautics/calculator/sizing.go:106-129 | The loops over the contributions compute the intersection |
| Sizing.BestIsTheExtreme | aeronautics/calculator/sizing.go:106-137 | The intersected value is attained by a known contribution and no known one is tighter; it is absent exactly when none is known |
| Sizing.ControllersAreTheTiedSources | aeronautics/calculator/sizing.go:120-128 | The controlling sources are exactly those of the known contributions tied at the bound |
| Sizing.ReintersectingIsOneIntersection | aeronautics/calculator/sizing.go:366-388 | Intersecting, appending and intersecting again equals one intersection of the whole list, and partial stays partial |
| Sizing.FindStallCeilings | aeronautics/calculator/sizing.go:143-208 | The nested loop lists the stall ceilings in scope, or says why the scope names none |
| Sizing.CeilingsOverAre | aeronautics/calculator/sizing.go:143-182 | A ceiling is listed exactly when its case is covered and its requirement bounds stall speed in that case, a preferred requirement counting for one named case only |
| Sizing.ComputeAreaLowerBound | aeronautics/calculator/sizing.go:213-236 | The loop over the ceilings computes the intersected area demand |
| Sizing.ComputeAreaUpperBound | aeronautics/calculator/sizing.go:285-313 | The loop over the requirements and the span-with-aspect pair compute the intersected allowance |
| Sizing.ComputeMassInterval | aeronautics/calculator/sizing.go:366-439 | The loop over the requirements computes both ends of the mass interval |
| Sizing.AddMassLowerContribution | aeronautics/calculator/sizing.go:392-417 | Exactly the required mass minima and wing-loading minima contribute to the lower end |
| Feasibility.LowerBoundIsWhatTheCeilingsDemand | aeronautics/calculator/sizing.go:213-236 | At the design's mass, an area is at least the lower bound if and only if every evaluated stall ceiling holds at that area |
| Feasibility.FloorIsWhatTheCeilingsDemand | aeronautics/calculator/sizing.go:213-236 | The same for any list of ceilings and any mass |
| Feasibility.UpperBoundIsWhatTheMaximaAllow | aeronautics/calculator/sizing.go:285-313 | An area is at most the upper bound if and only if it meets the stated maxima and lies below b^2/A of the pair |
| Feasibility.BoundsDecideFeasibility | aeronautics/calculator/sizing.go:213-313 | Of the limits that contribute to the bounds (the area maxima and the one pair read): with both bounds known, some positive planform meets them and the evaluated ceilings if and only if lower <= upper and the pair admits a span |
| Feasibility.ConflictsAreReal | aeronautics/calculator/sizing.go:475-496 | No positive span and area meet the contributing limits of a reported conflict, and of bounds that do not cross nothing is reported |
| Feasibility.UnreportedMeansFeasibleOrWithinTolerance | aeronautics/calculator/sizing.go:475-496 | Contributing limits that are not reported are feasible, unless the bounds cross by no more than the tolerance or the pair admits no span |
| Feasibility.GrownSpanAllowsTheDemandedArea | aeronautics/calculator/sizing.go:501-522 | The offered span carries the demanded area at exactly the required aspect ratio |
| Feasibility.CeilingMassDemandsTheCurrentArea | aeronautics/calculator/sizing.go:241-267 | At the offered ceiling mass the demanded area is exactly the present one |
| ConflictReports.TheFloorIsTheLargestNeed | aeronautics/calculator/sizing.go:213-236 | The area lower bound is the largest area any required case needs to carry the mass at its stated stall maximum less the margin, and is known exactly when some required case states one |
| ConflictReports.TheUpperBoundIsTheSmallestCap | aeronautics/calculator/sizing.go:285-342 | The area upper bound is the smallest of the stated area maxima less their margins and b^2/A of the first span maximum with the first aspect-ratio minimum |
| ConflictReports.UnknownBoundsShowNothing | aeronautics/calculator/sizing.go:106-129 | An unknown bound shows no value and nothing in control of it, and the lower one is partial if and only if some required ceiling needs an area that is not known |
| ConflictReports.TheReportedConflictNamesBothSides | aeronautics/calculator/sizing.go:475-496 | A conflict is reported if and only if the largest need lies past the smallest cap by more than the tolerance; there is one, in name order, and a name is in it if and only if it names a required case whose need is tied at the floor, or an area maximum or the span-with-aspect pair tied at the cap |
| ConflictReports.NothingIsReportedOfOneSide | aeronautics/calculator/sizing.go:475-496 | Nothing is reported unless some required case needs an area and something caps it |
| ConflictReports.TheConflictOffers | aeronautics/calculator/sizing.go:501-528 | The conflict offers a span if and only if a required aspect-ratio minimum is in force, then a mass if and only if the wing solves and some required case allows one on it; the span carries the demanded area at that aspect ratio, and the mass is the smallest any required case allows |
| ConflictReports.TheOfferedMassNeedsTheCurrentArea | aeronautics/calculator/sizing.go:241-267 | Entered as the mass, the offered one makes the largest need exactly the current area |
| Feasibility.MassFloorIsTheMinima | aeronautics/calculator/sizing.go:366-417 | A fully known lower mass end is cleared exactly by the masses meeting every required mass and wing-loading minimum |
| Feasibility.MassCeilingIsTheMaximaAndTheCeilings | aeronautics/calculator/sizing.go:241-388 | A fully known upper mass end is met exactly by the masses meeting every required maximum and stall ceiling |
| Feasibility.UpperMassIsOneIntersection | aeronautics/calculator/sizing.go:366-388 | Intersecting the ceilings first and the stated maxima after them is one intersection |
| Feasibility.MassIntervalIsExact | aeronautics/calculator/sizing.go:366-439 | With every contribution known, a mass lies in the interval if and only if it meets every required mass bound, wing-loading minimum at the solved area, and stall ceiling in scope |
| SizingLaws.AnEmptyIntervalHoldsNoMass | aeronautics/calculator/sizing.go:419-439 | The interval is empty if and only if both ends are known and cross by more than the tolerance; with everything known no mass meets the limits of an empty one, and some mass does exactly when the ends do not cross |
| SizingLaws.WithoutAWingNoCeilingBinds | aeronautics/calculator/sizing.go:241-267 | Without a solved wing no ceiling bounds the mass, and the bound is partial if and only if a stall maximum limits some case in scope |
| Feasibility.TheFirstSpanMaximumIsReadNotTheTightest | aeronautics/calculator/sizing.go:323-342 | A second, tighter span maximum is not read: exchanging the two changes the upper bound |
| StatedLimits.AllowedIsFittingEveryPair | aeronautics/calculator/sizing.go:285-313 | All the stated limits together allow exactly the areas within every area maximum that satisfy A*S <= b^2 for every span maximum and every positive aspect-ratio minimum, once every span maximum is positive |
| StatedLimits.UpperBoundRefusesNothingAllowed | aeronautics/calculator/sizing.go:285-313 | The upper bound never refuses an area all the stated limits allow |
| StatedLimits.TheUpperBoundIsExactExactlyWhenTheFirstIsEnough | aeronautics/calculator/sizing.go:285-342 | The upper bound is exactly what all the stated limits allow if and only if the first span maximum is the least and the first aspect-ratio minimum the greatest, or there is nothing to pair, or an area maximum binds below every pair; with a span maximum that is not positive, if and only if an area maximum or a zero first span leaves nothing |
| StatedLimits.FeasibleExactlyWhenTheFloorIsAllowed | aeronautics/calculator/sizing.go:213-313 | One positive planform meets every evaluated ceiling and every stated limit if and only if the demanded area is an allowed one |
| StatedLimits.TheBoundsDecideWhatIsStated | aeronautics/calculator/sizing.go:213-313 | Stated limits that are feasible are let through by the upper bound, and where the first pair is enough they are feasible if and only if the bounds do not cross |
| StatedLimits.ConflictsAgainstWhatIsStated | aeronautics/calculator/sizing.go:475-496 | A conflict is only reported of stated limits no planform meets; where the first pair is enough and none is reported, they are feasible unless the bounds cross by no more than the tolerance |
| StatedLimits.AnUnreadSpanHidesAConflict | aeronautics/calculator/sizing.go:323-342 | A concrete design no wing meets, of which nothing is reported, and which is reported once its two span maxima change places |
| Electrical.ComputeBudget | aeronautics/calculator/electrical.go:83-149 | The loop over the loads and its two recorders compute the budget |
| Electrical.ComputedBudgetCountsEveryKnownDraw | aeronautics/calculator/electrical.go:83-149 | A computed continuous total is the sum of every known pack-side draw, and the budget is complete exactly when every load is known |
| Electrical.RegulatorLossIsCountedOnce | aeronautics/calculator/power.go:79-92 | A load-side figure divided by the efficiency gives the draw at the battery once, and a figure measured at the battery passes unchanged |
| Electrical.AContributionReadsItsLoad | aeronautics/calculator/electrical.go:161-197 | A load is known if and only if its continuous figure is stated and can be carried to the battery, and its peak too if it states one; each figure times its efficiency is the figure measured behind the regulator, and a continuous one is kept beside a peak that cannot be carried |
| Electrical.ComputedBudgetPeakAndEvidence | aeronautics/calculator/electrical.go:83-149 | A computed budget's peak is the sum of the stated peaks, where they are powers and come to something, and its evidence is the weakest of the loads that contributed |
| Electrical.ABudgetIsComputedExactly | aeronautics/calculator/electrical.go:83-149 | A budget is computed if and only if some load contributes and every contributing continuous draw is a power |
| Missions.AnalyseMission | aeronautics/calculator/mission.go:517-626 | The loop over the segments, its recorders and the budget comparison compute the analysis |
| Missions.ComputedSegmentFacts | aeronautics/calculator/mission.go:666-738 | A computed segment's energy is its draw times its duration, its draw includes the auxiliary draw once, and it has a distance exactly when it makes headway |
| Missions.PolarSegmentBalances | aeronautics/calculator/mission.go:787-895 | A segment flown on the polar balances lift, drag, thrust and electrical power, inside both lift envelopes |
| FlightLaws.SegmentsMoveAsStated | aeronautics/calculator/mission.go:698-738 | A segment's ground speed is its airspeed times the cosine of its climb plus the wind along its track; it makes headway if and only if that is positive, and has a duration if and only if it states one, or a distance it makes headway over |
| FlightLaws.SegmentsShowTheirTiming | aeronautics/calculator/mission.go:698-738 | A segment shows its own name, case and kind, the duration or distance it states, and the other one exactly when it makes headway over a positive first: ground speed times duration is distance |
| FlightLaws.SegmentStatusSaysWhy | aeronautics/calculator/mission.go:666-738 | A segment that cannot be timed is missing what it leaves out and invalid for what it misstates, a distance without headway included; one that can be carries its power's status where that did not compute |
| FlightLaws.UncomputedSegmentsShowNothing | aeronautics/calculator/mission.go:666-692 | A segment without a power shows no thrust and no draw, and one that does not compute shows no energy |
| FlightLaws.AnUncomputedMissionShowsNothing | aeronautics/calculator/mission.go:517-557 | A mission shows every segment and its own reserve; with no segment computed it shows no figure, and uncomputed it judges no energy |
| FlightLaws.EnteredPowerDraws | aeronautics/calculator/mission.go:765-785 | An entered power is drawn with the continuous auxiliary draw on top, if and only if it is a power and the auxiliary budget is computed |
| FlightLaws.ABalanceIsFoundExactly | aeronautics/calculator/mission.go:829-949 | A balance is found if and only if the flight and the drag are stated, the chain efficiency is in (0, 1], and some lift coefficient inside both envelopes carries the weight across the path while the drag it brings leaves the thrust forward |
| FlightLaws.PolarPowerDraws | aeronautics/calculator/mission.go:787-826 | A polar segment has a power if and only if the auxiliary budget is computed and it is flown: its case is listed, a polar is stated, the wing solves, the mass is read and a balance is found at its own efficiency or the installation's; the propulsion's draw through the efficiency is thrust times airspeed |
| Missions.MissionConservesEnergy | aeronautics/calculator/mission.go:517-577 | Required energy equals the propulsive draw times duration over computed segments plus the continuous auxiliary draw times the total duration |
| Missions.SegmentsComputeExactlyWhenCosted | aeronautics/calculator/mission.go:666-738 | A segment computes if and only if, as stated, it has a duration (its own, or a distance to cover with headway) and its power model gives a positive draw |
| Missions.MissionIsComputedExactlyWithHeadway | aeronautics/calculator/mission.go:559-587 | The totals are computed if and only if some stated segment is costed and the airspeed, climb and wind of every costed one give a positive ground speed |
| Missions.MissionPeakIsTheLargestDraw | aeronautics/calculator/mission.go:517-556 | The peak is attained by a computed segment and exceeded by none |
| Missions.EnergyIsMetExactlyWithinTheReserve | aeronautics/calculator/mission.go:589-626 | The energy check is met if and only if the mission is computed, some segment is flown and every segment contributes, the battery states an energy on its own fields, the reserve is in [0, 1), and the required energy is at most capacity times voltage (or the entered energy) times the usable fraction times one less the reserve, to the tolerance |
| Missions.ABatteryStatesAnEnergyExactlyOnItsOwnFields | aeronautics/calculator/propulsion.go:597-623 | A battery states a usable energy if and only if its usable fraction is in (0, 1] and it states a positive capacity and voltage, or a positive energy outright; it is then that product or that energy times the fraction |
| Missions.TheBudgetShownIsTheBatterys | aeronautics/calculator/mission.go:589-626 | The usable energy and the budget shown are the battery's stored energy times its usable fraction, and that less the reserve |
| Missions.NoHeadwayLegWithholdsTheMission | aeronautics/calculator/mission.go:698-738 | A concrete mission whose only leg makes no headway keeps that leg's energy and withholds the mission's totals |
| Requirements.Assess | aeronautics/calculator/requirements.go:545-580 | The nested loop over requirements and cases lists the checks in order |
| Requirements.ChecksOverAre | aeronautics/calculator/requirements.go:545-580 | A check is reported exactly when it is what a supplied side of a requirement says in a case it is judged in |
| Requirements.TheDesignIsMetExactlyWhenEveryDemandHolds | aeronautics/calculator/requirements.go:545-615 | The combined status makes a claim exactly when a required requirement states a side in a case it is judged in; it is met exactly when each such side was computed and lies inside its effective bound to the tolerance, and unmet exactly when one was computed and does not |
| Requirements.Aggregate | aeronautics/calculator/requirements.go:372-388 | The filter and the loop compute the combined status and whether there is one |
| Requirements.MetExactlyWhenEveryRequiredCheckIs | aeronautics/calculator/requirements.go:372-388 | The set is met if and only if it has a required check and every required check is met |
| Requirements.AggregateForgetsOrder | aeronautics/calculator/requirements.go:372-388 | The combined status depends only on which checks there are |
| Requirements.PreferredCasesAreJudgedButDoNotBound | aeronautics/calculator/requirements.go:545-561 | A required stall requirement in a preferred case is judged and counted in the aggregate, yet bounds the area only if the case is required |
| StatedChecks.ReportedChecksSayWhatIsStated | aeronautics/calculator/requirements.go:545-632 | A check is reported if and only if a requirement states that side in a case it is judged in: its bound is the stated maximum less the margin's share of it, or the stated minimum and that share more, and its status and margin are those of the room between the bound and what the subject reads |
| StatedChecks.TheBoundInForceIsTheTightenedOne | aeronautics/calculator/requirements.go:202-215 | A side is in force if and only if it is stated and its margin leaves something of it, and it is then tightened by exactly the margin |
| StatedChecks.AMetDesignKeepsWhatIsStated | aeronautics/calculator/requirements.go:545-622 | Where the combined status is met, every required side of a non-negative limit with a margin in [0, 1) was computed and keeps the limit as stated, less the margin, to the tolerance |
| StatedChecks.SizedStallSpeedKeepsTheStatedMaximum | aeronautics/calculator/commands.go:411-442 | At the area sizing leaves, no case in scope stalls faster than its stated maximum less the margin, read as the assessment reads the sized design |
| StatedChecks.GeometryReads | aeronautics/calculator/requirements.go:403-424 | The span and the area read are the plan view's, and the aspect ratio is the squared span over the area |
| StatedChecks.WingLoadingReads | aeronautics/calculator/requirements.go:425-429 | A wing loading is read if and only if a positive mass is, and times the area it is that mass |
| StatedChecks.StallSpeedReads | aeronautics/calculator/requirements.go:430-434 | A stall speed is read if and only if a positive mass is and the case states its lift, and balances weight and lift; what is left out reads as missing and what is misstated as invalid |
| StatedChecks.MissionSubjectsRead | aeronautics/calculator/requirements.go:454-489 | A mission subject is read if and only if the mission is computed and every segment contributed: the summed energies, durations and distances, and the largest draw |
| StatedChecks.ClearanceReads | aeronautics/calculator/requirements.go:454-465 | A propeller clearance is read if and only if a positive hub height and diameter are stated: the height less half the diameter, of either sign |
| Keys.ListDriverKeys | aeronautics/calculator/design.go:227-235 | The loop over the fixed key order lists the held drivers |
| Keys.DriverKeysAreTheHeldOnes | aeronautics/calculator/design.go:212-252 | Exactly the held drivers are listed, each in the design's own plane, as many as were supplied |
| Commands.FindValidSwaps | aeronautics/calculator/design.go:307-368 | The loop over the held drivers tries each exchange against the solve paths |
| Commands.SizeDrivers | aeronautics/calculator/commands.go:411-442 | The loop that releases every driver but the held one and writes the area computes the edit the sizing theorems are about |
| Editing.SwapsAreTheHeldPair | aeronautics/calculator/design.go:307-348 | A promotion is possible exactly for an unheld size key on a design with two drivers and a resolved taper, and then either held driver may be released |
| Editing.PromotionSwapsExactlyOne | aeronautics/calculator/commands.go:122-146 | A promotion gains one driver, loses one, touches no other and lands on a supported path |
| Editing.SetDriverCounts | aeronautics/calculator/commands.go:70-100 | Setting a driver keeps at most two, and the written value is positive and of the key's dimension |
| EditEffects.ADriverEditWritesWhatItGives | aeronautics/calculator/commands.go:70-208 | After an accepted driver, promotion, taper or shape edit every field reads what the edit gives for it, a promotion clearing the released driver, and every other field and list reads as before |
| EditEffects.ADriverEditIsAcceptedExactly | aeronautics/calculator/commands.go:70-208 | A driver is set if and only if its value is a positive one of its dimension and it is held or fewer than two are, and cleared if and only if it is held; it is promoted if and only if it is not held, the one released is, two are, and the taper is usable |
| EditEffects.ARefusedDriverEditSaysWhy | aeronautics/calculator/commands.go:70-208 | A refused driver edit gives one reason: unsupported if and only if the key is no size driver or no exchange would leave a supported path, missing if and only if the shape, the release or any driver to exchange is not stated, and otherwise invalid |
| EditEffects.AFieldEditWritesWhatItGives | aeronautics/calculator/commands.go:526-614 | After any of the ten field edits each field it names reads the value given for that field, and every other field of the design and every list reads as before |
| EditEffects.AFieldEditIsAcceptedExactlyWhenAcceptable | aeronautics/calculator/power_commands.go:26-358 | A field edit is accepted by what it gives alone: every value of its own dimension, angles stated, fractions in range, configuration and mass mode known |
| EditEffects.FieldEditsCommuteExactlyWhenTheyAgree | aeronautics/calculator/power_commands.go:26-358 | Two accepted field edits may be exchanged if and only if they give the same value to every field both name |
| EditEffects.AListEditWritesItsEntry | aeronautics/calculator/commands.go:213-402 | For every list and every name: after an accepted list edit the entry it works on reads as edited, every other entry reads as before, its list's names stand in order with the set one last, the removed one gone and the moved one where it was sent, and no other list and no field changes |
| EditEffects.AListEditIsAcceptedExactly | aeronautics/calculator/power_commands.go:105-466 | A list edit is accepted if and only if what it states is complete and of the right dimensions, the name it edits is listed, and nothing it removes is still referred to |
| EditEffects.ARefusedListEditSaysWhy | aeronautics/calculator/power_commands.go:105-466 | A refused list edit gives one reason: missing if and only if it leaves out a name, a role, a kind, a priority, a coordinate or names an entry that is not listed, and otherwise invalid |
| EditEffects.ARefusedFieldEditSaysWhy | aeronautics/calculator/commands.go:526-614 | A refused field edit reports missing, invalid and unsupported if and only if an angle or a choice is left out, a value is of another dimension or out of range, or the polar is a section's |
| EditEffects.EditsKeepDimensions | aeronautics/calculator/commands.go:40-60 | Every accepted edit keeps every mass, position, angle, rating, battery, capability, load and segment figure left out or of its own dimension |
| Editing.PromotionKeepsPositive | aeronautics/calculator/commands.go:122-165 | A promotion keeps every driver a positive value of its dimension |
| Editing.EditsKeepTheDriversSound | aeronautics/calculator/commands.go:70-165 | Every accepted command keeps at most two drivers, all positive in their dimensions |
| Editing.SizingLeavesTheHeldDriverAndTheArea | aeronautics/calculator/commands.go:411-458 | Sizing at the stall limit leaves exactly the held driver, unchanged, and a positive area |
| Editing.AreaDriverProjectsBack | aeronautics/calculator/commands.go:449-458 | The area written as a driver projects back to the demanded area in every dihedral mode |
| Editing.SizingReachesTheLeastArea | aeronautics/calculator/commands.go:411-458 | The sized wing's projected area is the least area at which every evaluated stall ceiling in scope holds |
| Editing.SizingMeetsEveryCheckInScope | aeronautics/calculator/commands.go:411-442 | After sizing, the assessment reports every evaluated stall ceiling in scope as met |
| SizingLaws.SizingIsAcceptedExactly | aeronautics/calculator/commands.go:411-442 | Sizing is accepted if and only if it holds a driver other than the area, its scope names cases, some stall maximum in scope sizes the wing at a positive mass, and the area has a driver to be written to |
| Editing.EditsKeepNamesDistinct | aeronautics/calculator/commands.go:213-303 | Every accepted command keeps the names in each list distinct |
| Editing.RemovingACaseStrandsNoRequirement | aeronautics/calculator/commands.go:316-332 | No per-case requirement loses a case it names |
| Editing.RemovingACaseStrandsExactlyItsSegments | aeronautics/calculator/commands.go:316-332 | Exactly the mission segments flown in the removed case lose it: the command does not look at them |
| Editing.RemovingACapabilityStrandsNothing | aeronautics/calculator/power_commands.go:155-181 | No thrust target and no mission segment loses a capability point it names |
| Lists.PutIsFound | aeronautics/calculator/commands.go:213-226 | What is set is what its name finds |
| Lists.PutLeavesOtherNames | aeronautics/calculator/commands.go:213-226 | Every other name finds what it found before |
| Lists.PutKeepsNamesDistinct | aeronautics/calculator/commands.go:213-226 | Setting by name keeps names distinct |
| Lists.DropTakesExactlyOne | aeronautics/calculator/commands.go:237-248 | A removal takes out the first entry of the name and keeps the rest in order |
| Lists.MoveIsAPermutationUndoneByMovingBack | aeronautics/calculator/power_commands.go:439-463 | A move is a permutation that moving back undoes |
| Lists.Append | aeronautics/calculator/commands.go:213-226 | Appending writes the spare slot of the backing array or copies to a new one, and nothing else |
| Lists.Remove | aeronautics/calculator/commands.go:237-248 | The in-place splice shifts the tail down within the backing array |
| Lists.Insert | aeronautics/calculator/power_commands.go:439-463 | The in-place splice opens a gap and writes the entry into it |
| Lists.PutInPlace | aeronautics/calculator/commands.go:213-226 | The search loop replaces in place or appends |
| Lists.DropInPlace | aeronautics/calculator/commands.go:237-248 | The search loop removes in place or refuses |
| Lists.AmendInPlace | aeronautics/calculator/commands.go:265-279 | The search loop edits the named entry in place or refuses |
| Lists.MoveInPlace | aeronautics/calculator/power_commands.go:439-463 | Both splices on one backing array move the segment exactly as the list-level move says |
| Revisions.CloneLists | aeronautics/calculator/design.go:152-164 | A clone holds the same lists in arrays of its own |
| Revisions.Store | aeronautics/calculator/session.go:213-221 | A design handed to the session is copied, so the caller's slices cannot reach it |
| Revisions.RelistInPlace | aeronautics/calculator/power_commands.go:105-228 | One list is edited inside its own array and the view of the whole changes exactly as the list command says |
| Revisions.ApplyStored | aeronautics/calculator/commands.go:213-332 | Every command on a stored revision writes only new arrays and yields exactly the edited design |
| DiffChecks.Diff | aeronautics/calculator/session.go:419-454 | The three loops over maps and slices compute the difference |
| DiffChecks.DifferenceIsExact | aeronautics/calculator/session.go:419-454 | With distinct keys, a key appears once in the changes if its status differs, appears or vanishes, and otherwise not at all |
| DiffChecks.PatchingGivesTheLaterOutcomes | aeronautics/calculator/session.go:419-454 | Patching the earlier outcomes with the changes gives the later outcomes for every key |
| DiffChecks.ChangesKeepTheLaterOrder | aeronautics/calculator/session.go:419-442 | The changes are listed in the later set's order |
| DiffChecks.RemovalsKeepTheEarlierOrder | aeronautics/calculator/session.go:443-454 | The removals follow in the earlier set's order |
| DiffChecks.AssessmentKeysAreUnique | aeronautics/calculator/session.go:407-415 | The checks of a name-distinct design have distinct keys, so the difference applies to them |
| SessionModel.AcceptsExactlyTheLatestEvaluation | aeronautics/calculator/session.go:239-337 | Over every run, a result is accepted if and only if nothing after its request changed the design or asked for another evaluation |
| SessionModel.AcceptsExactlyTheLatestSweep | aeronautics/calculator/sweep.go:561-606 | The sweep stream obeys the same law independently, with its settings check |
| SessionModel.IdentitiesNeverRepeat | aeronautics/calculator/session.go:300-306 | Two requests of one run never carry the same identity |
| SessionModel.OtherIdentitiesAreNeverAccepted | aeronautics/calculator/session.go:378-403 | Preview and sweep identities are never acceptable as an evaluation's, nor the reverse |
| SessionModel.RefusedEditsChangeNothing | aeronautics/calculator/session.go:239-251 | A refused edit leaves history, cursor and request streams as they were |
| SessionModel.RevisionsUpToTheCursorStand | aeronautics/calculator/session.go:239-287 | No event changes a revision up to the cursor |
| SessionModel.UndosThenRedosRestore | aeronautics/calculator/session.go:256-273 | k undos then k redos restore the history and the cursor |
| SessionModel.UndoRestoresTheEdited | aeronautics/calculator/session.go:256-263 | Undoing an edit restores the design it was made on |
| SessionModel.RunsKeepWhatEditsKeep | aeronautics/calculator/session.go:239-287 | What every accepted edit and every loaded draft keeps holds of every revision of every run |
| Sessions.AppendRevision | aeronautics/calculator/session.go:239-251 | The append over the truncated redo tail keeps every revision up to the cursor, in the old array or a new one |
| Sessions.Session.Do | aeronautics/calculator/session.go:239-251 | An accepted command becomes the next revision; a refused one changes nothing; no earlier revision's arrays are written |
| Sessions.Session.Undo | aeronautics/calculator/session.go:256-263 | The cursor steps back and both requests are dropped, or the session is unchanged |
| Sessions.Session.Redo | aeronautics/calculator/session.go:266-273 | The cursor steps forward and both requests are dropped, or the session is unchanged |
| Sessions.Session.Load | aeronautics/calculator/session.go:283-287 | The draft is copied in as the next revision and both requests are dropped |
| Sessions.Session.Evaluate | aeronautics/calculator/session.go:300-306 | A fresh identity is minted, becomes the current one and is carried by the answer |
| Sessions.Session.Accept | aeronautics/calculator/session.go:321-337 | A result is accepted exactly when it answers the current request over the current inputs |
| Sessions.Session.Freshness | aeronautics/calculator/session.go:310-315 | A held evaluation is computed exactly when it would be accepted, and stale otherwise |
| Sessions.Session.DoPreview | aeronautics/calculator/session.go:378-403 | A preview mints two identities, changes nothing else and reports both assessments and their difference |
| Sessions.Session.Sweep | aeronautics/calculator/sweep.go:561-571 | A planned sweep becomes the current one and a refused plan changes nothing |
| Sessions.Session.AcceptSweep | aeronautics/calculator/sweep.go:587-606 | A sweep is accepted exactly when it answers the current sweep request, over the current inputs, with the same settings |
| Sessions.RunsKeepEveryRevisionSound | aeronautics/calculator/session.go:239-287 | Over every run from sound designs with sound loads, every revision has at most two drivers, all positive, and distinct names |
| Sessions.RunsKeepEveryRevisionDimensioned | aeronautics/calculator/session.go:239-287 | Over every run from dimensioned designs with dimensioned loads, everything entered in every revision is left out or of its own dimension |
| Sessions.PreviewsAreExact | aeronautics/calculator/session.go:378-403 | A preview's changes are exactly the checks whose outcome the command alters, and patching with them gives the outcomes after it |
| Assessments.StaleClaimsNothing | aeronautics/calculator/session.go:97-156 | A stale evaluation keeps its numbers and claims nothing: its checks, its aggregate and its energy are unknown, and its geometry, balance, budget, mission and every segment are stale |
| Assessments.MarkStale | aeronautics/calculator/session.go:97-130 | The loop over the copied checks rewrites each to an unknown one |
| Assessments.TheAssessmentAgreesWithItself | aeronautics/calculator/session.go:162-190 | The parts of an assessment are of one design and agree: the claim is of the reported checks, the conflict of the two reported area bounds, a mass from the components is the reported total |
| Assessments.MissionChecksAreOfTheMission | aeronautics/calculator/requirements.go:454-489 | A computed mission check reads a figure of the reported mission |
| Assessments.TheMissionIsOfTheBudget | aeronautics/calculator/mission.go:517-577 | The reported mission's energy rests on the reported continuous auxiliary draw |
| CanonicalText.QuoteText | aeronautics/calculator/snapshot.go:35-44 | The loop over the characters builds the quoted text |
| CanonicalText.QuotedTextIsSelfDelimiting | aeronautics/calculator/snapshot.go:35-44 | For all strings, two quoted texts with anything after them that read the same are the same text with the same rest |
| CanonicalText.ValuesSplit | aeronautics/calculator/snapshot.go:11-29 | Every kind of value is delimited from what follows it |
| CanonicalText.RenderingsReadBack | aeronautics/calculator/snapshot.go:11-44 | Two renderings of one shape that read the same are the same fields |
| Snapshots.WriteSnapshot | aeronautics/calculator/snapshot.go:55-163 | The writers append exactly the design's fields, section by section |
| Snapshots.WriteMission | aeronautics/calculator/snapshot.go:198-228 | The mission is written as its header, its count and its segments keyed by index |
| Snapshots.MissionRenderingReadsBack | aeronautics/calculator/snapshot.go:198-228 | Equal mission renderings, whatever follows them, mean equal headers and equal segment lists in order |
| Snapshots.Join | aeronautics/calculator/geometry.go:305-314 | The loop joins the names with a comma and a space |
| Snapshots.SeparatorFreeNamesAreReadBack | aeronautics/calculator/snapshot.go:310-312 | Lists of names that do not hold ", " share a joined form if and only if they are equal, or one is empty and the other is the single name "none" |
| Snapshots.OnlyASinglePlainNameIsReadBack | aeronautics/calculator/geometry.go:305-314 | A name list is the only one with its joined form if and only if it is one name, that name does not hold ", ", and it is not "none" |
| Snapshots.JoinedNamesCanBeForged | aeronautics/calculator/geometry.go:305-314 | Every list of two or more names shares its joined form with a list of one |
| Snapshots.ForgedCasesShareAFingerprint | aeronautics/calculator/snapshot.go:297-314 | So two requirements with different case lists have one canonical form |
| SnapshotReadBack.SnapshotsReadBack | aeronautics/calculator/snapshot.go:55-314 | Two designs whose list names hold no closing bracket share a snapshot only if they are one design up to the order of the name-keyed lists and to case names joined into one text |
| SnapshotReadBack.PlainCaseNamesAreReadBack | aeronautics/calculator/snapshot.go:297-314 | Where no case name holds ", " and an empty list is not set against "none", the case names are the same too |
| Sorting.SortedArrangementIsUnique | aeronautics/calculator/snapshot.go:271-314 | A name-distinct list has exactly one arrangement in name order, whatever sort finds it |
| Sorting.SortingForgetsOrder | aeronautics/calculator/snapshot.go:73-87 | Reordering a name-distinct list does not change its sorted copy |
| Reordering.SnapshotForgetsOrder | aeronautics/calculator/snapshot.go:55-87 | Rearranging name-distinct components, loads, cases, requirements, capability points and targets keeps the snapshot |
| Reordering.SnapshotsAgreeExactlyOnOneRecord | aeronautics/calculator/snapshot.go:55-314 | With distinct names that hold no closing bracket, two designs share a snapshot if and only if they are one design up to that order and that joining |
| Reordering.BalanceForgetsOrder | aeronautics/calculator/mass.go:218-288 | Rearranging the components keeps the total, the CG, the status and the completeness |
| Reordering.BudgetForgetsOrder | aeronautics/calculator/electrical.go:83-149 | Rearranging the loads keeps both totals, the evidence, the status and the completeness |
| Reordering.AnalysisForgetsOrder | aeronautics/calculator/mission.go:517-556 | Rearranging the lists keeps the whole mission result |
| Reordering.AggregateSeesNoOrder | aeronautics/calculator/requirements.go:372-388 | Rearranging the lists keeps the set of checks and so the combined status |
| Reordering.AreaLowerBoundForgetsOrder | aeronautics/calculator/sizing.go:213-236 | Rearranging the lists keeps the area lower bound's value, its controllers and its status |
| Reordering.MassIntervalForgetsOrder | aeronautics/calculator/sizing.go:366-439 | Rearranging the lists keeps both ends of the mass interval |
| Reordering.BoundIsReadInAnyOrderExactlyWhenStatedOnce | aeronautics/calculator/sizing.go:323-342 | The bound read for a subject is the same in every order of name-distinct requirements if and only if at most one requirement states it |
| Reordering.AreaUpperBoundForgetsOrder | aeronautics/calculator/sizing.go:285-313 | With at most one required span maximum and one required aspect minimum, order does not change the area upper bound |
| Reordering.ConflictsForgetOrder | aeronautics/calculator/sizing.go:475-496 | And then a conflict is reported in every order or in none |
| Reordering.AreaUpperBoundIsOrderFreeExactlyWhenPairsAgree | aeronautics/calculator/sizing.go:285-342 | The area upper bound is the same in every order of the requirements if and only if, within the area maxima, every stated pair of a span maximum and an aspect-ratio minimum lets through the areas the first does |
| Reordering.ConflictsAreOrderFreeWhenPairsAgree | aeronautics/calculator/sizing.go:475-496 | And then a conflict is reported in every order or in none |
| Reordering.OneFormTwoAnswers | aeronautics/calculator/snapshot.go:297-299 | Two orders of the same requirements that share a snapshot and have different upper bounds, one reported in conflict and the other not |
| Parameters.EvaluationOrder | aeronautics/calculator/parameters.go:125-169 | An order is returned if and only if keys are distinct, dependencies are present and the graph has no cycle; it lists every key with its dependencies before it |
| Parameters.NoProgressMeansACycle | aeronautics/calculator/parameters.go:147-169 | A round that places nothing while parameters remain exhibits a cycle among the unplaced ones |
| Parameters.OrderedMeansAcyclic | aeronautics/calculator/parameters.go:125-169 | A graph with such an order has no cycle |
| Parameters.PlacedNeverExceeds | aeronautics/calculator/parameters.go:147-169 | The placed keys never outnumber the parameters, and equal them exactly when all are placed |
| Parameters.BuildParameters | aeronautics/calculator/parameters.go:239-394 | The builder appends the drivers and derived values of a solved wing in its order |
| Parameters.EveryWingCanBeOrdered | aeronautics/calculator/parameters.go:239-394 | Every wing's parameter set has distinct keys, no missing dependency and no cycle, in every solve mode and dihedral mode |
| Parameters.OrderWing | aeronautics/calculator/parameters.go:125-247 | So every wing's parameters are ordered, each dependency earlier |
| ParameterValues.DependenciesDetermineTheValue | aeronautics/calculator/parameters.go:304-394 | In every solve mode and dihedral mode a derived value is a function of exactly what its parameter depends on: two solved wings of the same choices that agree on those agree on it |
| ParameterValues.DriversAreWhatIsStated | aeronautics/calculator/parameters.go:239-394 | The driver parameters of a solved wing are exactly the values its definition states |
| ParameterValues.SolvedWingsHold | aeronautics/calculator/wing.go:179-338 | Every solved wing stands in the relations those functions are read from |
| Sweeps.FingerprintsAreTheSettings | aeronautics/calculator/sweep.go:50-59 | Two settings share a fingerprint if and only if they ask the same question |
| Sweeps.ValidatedFingerprintsAreTheSettings | aeronautics/calculator/sweep.go:50-59 | Of validated settings, if and only if they are equal |
| Sweeps.DriverValuesAreStrictlyMonotone | aeronautics/calculator/sweep.go:319-331 | The samples run strictly from one end to the other, both ends exact |
| Sweeps.AReversedRangeIsAccepted | aeronautics/calculator/sweep.go:229-254 | A validated range may be turned around: downward sweeps are accepted |
| Sweeps.CandidatesAreAcceptedAndMoveOnlyTheDriver | aeronautics/calculator/sweep.go:336-342 | Every candidate of a validated sweep is an accepted edit holding the sample's value and changing nothing but the swept driver |
| Sweeps.InvariantOutput | aeronautics/calculator/sweep.go:479-496 | An output is flat exactly when a second computed sample exists and every later computed value is near the first |
| Sweeps.Run | aeronautics/calculator/sweep.go:403-439 | The loop computes one sample per step, then the boundaries and whether the output is flat |
| SweepLaws.ASweepIsPlannedExactly | aeronautics/calculator/sweep.go:156-281 | A sweep is planned if and only if its driver is an entered mass or a held size driver, its ends are two different positive values of the driver's dimension, it takes 2 to 65 samples, its subject is known with a listed case exactly for the stall speed, and two drivers with a usable taper are held |
| SweepLaws.SamplesAreEvenlySpaced | aeronautics/calculator/sweep.go:319-331 | Sample n lies n steps of the same size from the start |
| SweepLaws.ABoundaryIsDrawnExactlyWhenStated | aeronautics/calculator/sweep.go:445-474 | A boundary is drawn if and only if a requirement on the plotted output states that side, and it is the stated one tightened by the margin |
| Sweeps.EverySampleIsAJudgedDesign | aeronautics/calculator/sweep.go:336-400 | Sample n of a validated sweep shows the plotted subject and the combined status of the design itself with the swept value moved to the n-th one and nothing else, and the marker those of the design as it stands |
| Sweeps.BoundsAreTheStatedSides | aeronautics/calculator/sweep.go:445-474 | The boundaries drawn are exactly the stated sides of the requirements on the plotted output |
| Sweeps.ExactlyWhatIsNotSweptIsHeld | aeronautics/calculator/sweep.go:283-296 | Reported as held are exactly the size drivers the design holds other than the swept one, each in the design's own plane, the taper ratio, the dihedral, and an entered mass that is not itself swept |
| PowerSearch.SearchFingerprintsAreTheSettings | aeronautics/calculator/powersearch.go:32-40 | Two search settings share a fingerprint if and only if they are equal up to how the driver's key is written |
| PowerSearch.CollectIntervals | aeronautics/calculator/powersearch.go:229-286 | The loop over the candidates collects the runs with their brackets and open ends, found exactly when some candidate is feasible and unique exactly when one is |
| PowerSearch.RunsAreMaximal | aeronautics/calculator/powersearch.go:229-250 | Every collected run is a maximal feasible run, and the runs are disjoint and in order |
| PowerSearch.RunsAreExactlyTheMaximalOnes | aeronautics/calculator/powersearch.go:229-286 | A run is collected if and only if it is a maximal feasible one, and every feasible candidate lies in one |
| PowerSearch.Search | aeronautics/calculator/powersearch.go:134-152 | The search judges every candidate and collects the runs; something is found exactly when a candidate is feasible and unique exactly when only one is; it is refused exactly when the plan is |
| PowerSearch.BracketsAreNamedForAnUpwardSearch | aeronautics/calculator/powersearch.go:253-286 | The bracket named below a run lies below it, and the one named above lies above it, if and only if the search runs upwards; an open end is an end of the searched range |
| PowerSearch.SearchCandidatesAreJudgedDesigns | aeronautics/calculator/powersearch.go:186-225 | Every candidate of a validated search is an accepted edit, judged as the design it is, at a value no other candidate has |
| PowerSearch.FeasibleMeansWithinAndMet | aeronautics/calculator/powersearch.go:186-225 | A candidate is feasible if and only if its demand lies within the ceiling and every required check is met |
| SweepLaws.ASearchIsPlannedExactly | aeronautics/calculator/powersearch.go:157-184 | A search is planned if and only if its ceiling is a power, the mission has a segment, and the same range of the same driver may be swept |
| SweepLaws.ACandidateIsJudged | aeronautics/calculator/powersearch.go:186-225 | A candidate shows its value, the status of its demand and its combined status; where the demand is computed its margin times the ceiling is the room left, and otherwise it shows nothing and is not feasible |
| SweepLaws.AnIntervalBracketsItsRun | aeronautics/calculator/powersearch.go:253-286 | An end of an interval is open if and only if no candidate lies beyond it, and is otherwise bracketed by the infeasible candidate next to it |
| Units.SymbolsAreUnique | aeronautics/calculator/units.go:248-332 | No two units are written alike |
| Units.UnitsAreReadBack | aeronautics/calculator/units.go:377-387 | Every unit is found by its symbol |
| Conversions.ConversionsAreUndone | aeronautics/calculator/units.go:442-471 | A value goes into any unit of its dimension and comes back the same |
| Conversions.MassesConvert | aeronautics/calculator/units.go:253-262 | A kilogram is 1000 grams, a pound 453.59237 grams and 16 ounces, a pound-force the weight of a pound |
| Conversions.LengthsConvert | aeronautics/calculator/units.go:264-277 | An inch is 25.4 millimetres, a foot 12 inches, a nautical mile 1852 metres, and each area unit is the square of its length |
| Conversions.SpeedsConvert | aeronautics/calculator/units.go:279-283 | A speed held for its own time covers its own length |
| Conversions.LoadingsConvert | aeronautics/calculator/units.go:285-300 | A loading over its own area is its own mass or force |
| Units.SIValuesAreReadBack | aeronautics/calculator/units.go:442-471 | Every quantity written in its SI unit is read back |
| WireEnums.TokensReadBack | aeronautics/api/enums.go:27-69 | A table whose tokens and values are distinct reads back every value it covers, the zero as an empty token |
| WireEnums.SubjectReadsBack | aeronautics/api/enums.go:82-346 | The subject table reads back every subject |
| WireEnums.SegmentKindReadsBack | aeronautics/api/enums.go:82-346 | The segment table reads back every kind |
| WireCodec.Decoder.TakeDesign | aeronautics/api/decode.go:73-116 | The decoder that gathers issues as it goes computes the decoded design and all its issues |
| WireCodec.Decoder.TakeAll | aeronautics/api/decode.go:73-116 | The loop over a list decodes every entry and keeps every issue |
| WireCodec.Decoder.TakePower | aeronautics/api/decode_power.go:198-213 | The power half is decoded last, and a list over its limit stops it |
| WireCodec.QuantitiesReadBack | aeronautics/api/encode.go:9-28 | Every quantity is read back, unset ones and dimensioned zeros included |
| WireCodec.AnyUnitIsRead | aeronautics/api/decode.go:29-48 | Written in any unit of its dimension, a quantity is read as itself |
| WireCodec.OnlySupportedUnitsAreRead | aeronautics/api/decode.go:29-48 | A stated quantity is read without an issue if and only if its unit is a supported symbol, and is otherwise not guessed |
| WireCodec.WingsReadBack | aeronautics/api/encode.go:105-138 | Every wing definition is read back |
| WireCodec.TailsReadBack | aeronautics/api/encode.go:140-168 | Every tail is read back |
| WireCodec.PropulsionReadsBack | aeronautics/api/encode_power.go:65-90 | Every propulsion within the list limits is read back |
| WireCodec.BatteriesReadBack | aeronautics/api/encode_power.go:92-108 | Every battery is read back |
| WireCodec.SegmentsReadBack | aeronautics/api/encode_power.go:123-143 | Every mission segment is read back |
| WireCodec.MissionsReadBackExactlyWhenKept | aeronautics/api/encode_power.go:145-159 | A mission is read back if and only if the encoder keeps it: it has a name or a segment, or nothing at all |
| WireCodec.DesignsReadBackExactlyWithAKeptMission | aeronautics/api/encode.go:74-103 | Every design within the list limits decodes without an issue, and to itself if and only if its mission is kept |
| WireCodec.AnUnnamedReserveIsDropped | aeronautics/api/encode_power.go:145-159 | A concrete reserve on an unnamed, empty mission is lost on the wire |

## Left out

- IEEE 754: rounding, infinities, NaN, overflow and underflow. A value is a real, so the checks that a number is finite have no counterpart.
- Real trigonometry beyond what `Platform.Lawful` states of a cosine; leading-edge sweep, tip offset and rise, the sweep transform, the MAC station aft of the root and the Oswald correlation.
- Traces of every evaluation except the mass balance's; equation metadata, sources, assumptions and patterns.
- Detail and label texts, and the fields issues name. Issues keep their kinds and their order.
- Strings are sequences of characters: bytes that are not valid UTF-8 in quoted text are not modelled.
- The partial fields of a segment's power when its balance is refused part-way: the model keeps the status and the efficiency only.
- Segment thrust availability, power feasibility, thrust checks, case loads and the definition's own validation: they add one-branch members or tables.
- Run: does not list the parameters that also change over a sweep nor write its describing text, because both read parameter values; nor does it stop early at a caller's request.
- BuildParameters: does not carry units, datums or equation names; the graph of keys and dependencies is modelled.
- DependenciesDetermineTheValue: does not speak of the leading-edge sweep, the tip offset and rise and the leading-edge station, whose values are not modelled; their edges are only ordered.
- ComputeWing: does not derive the leading-edge sweep, the tip offset and rise or the MAC station, which need a tangent and its inverse; none of them feeds a bound, a check or a total.
- AnalyseMission: does not carry thrust availability, traces or the fields of a balance refused part-way; the totals and statuses do not depend on them.
- BoundsDecideFeasibility: speaks of the limits that contribute to the bounds, of which the span and aspect limits are only the first; TheBoundsDecideWhatIsStated speaks of all of them.
- UnreportedMeansFeasibleOrWithinTolerance: the same; ConflictsAgainstWhatIsStated speaks of all the stated limits.
- AreaUpperBoundForgetsOrder: goes one way, on the number of statements; AreaUpperBoundIsOrderFreeExactlyWhenPairsAgree is the condition both ways.
- ConflictsForgetOrder: goes one way; OneFormTwoAnswers shows a conflict that depends on the order.
- SnapshotsReadBack: asks that list names hold no closing bracket; whether longer names can be told apart inside their own prefixes is not decided.
- The case names of a requirement inside a stored revision are held as a value: no command edits them in place.
- The sort that puts names in order is a function on a copy; with distinct names any sort gives its result, and that is proved.
- Growth of a slice's capacity: a new backing array has some larger length, and no property depends on which.
- Over-determined drivers whose implied span or area is not a number are compared as agreeing with nothing.
- The request sequence does not wrap around.
- Encoders of results and responses, the HTTP layer, JSON, contexts and cancellation, the ground control station and everything in the front end.
- Two sessions given the same name mint the same identities; acceptance is about the results of one session.
