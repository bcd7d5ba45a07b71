# Motor switchgear selection, modelled in Dafny

This project models the selection algorithm behind the `/calculate`
endpoint of a motor-switchgear recommendation service. A request gives a
motor's power (HP or kW), voltage, frequency, power factor, efficiency and
a starting method. The service answers with:

- the full-load current (FLC) and a circuit-breaker rating of FLC x 1.5;
- the contactor arrangement for the starting method, each contactor the
  smallest adequate catalog entry;
- an overload relay for the primary contactor's frame;
- the total cost and a role-labelled parts list.

Or it answers with one of the typed errors.

Modules, one per piece of the algorithm:

| module | file | what it holds |
|---|---|---|
| `Parts` | `parts.dfy` | the catalog records (starting method, contactor, overload relay) and `Option` |
| `Electrical` | `electrical.dfy` | the three-phase FLC formula, the breaker rating, FLC monotonicity |
| `Compatibility` | `compatibility.dfy` | the inclusive power-envelope filter, as a function and as the source's loop |
| `ContactorSelection` | `contactor_selection.dfy` | the cheapest adequate contactor (rating first, then price) |
| `RelaySelection` | `relay_selection.dfy` | the two-tier relay match, as a function and as the source's loop with early return |
| `Topology` | `topology.dfy` | the contactor arrangement of each starting method |
| `Components` | `components.dfy` | the parts list, as a function and as the source's append/extend steps |
| `Orchestration` | `orchestration.dfy` | validation, the HP/kW conversion, assembly of the answer, and the endpoint body as a method |
| `SeedScenarios` | `seed_scenarios.dfy` | worked cases over rows of the seeded parts database |

Each catalog query is a read of an immutable table, modelled as a `seq` of
records in storage order:

- a `.first()` query is an argmin whose contract states minimality;
- the `order_by(price).all()` query is an insertion sort proved sorted and
  a permutation.

The steps the source performs imperatively are methods, each proved equal
to the function that specifies it:

- the compatibility loop;
- the relay loop with its early return;
- the list building;
- the endpoint body, which reassigns the power variables and adds the relay
  price in place.

The properties are proved about those functions.

`math.sqrt(3)` and Python's `round(x, n)` are not computed. They are the
fields of a `Numerics` parameter: a real `sqrt3` and an arbitrary total
function `round`. Properties that need more of them say so in their
`requires`: `sqrt3 > 0`, or rounding that keeps order.

Behaviours reproduced as the code has them:

- **Zero counts as absent.** A power of 0, or an empty method name, is
  treated as missing, because the presence checks use Python truthiness.
- **Both power units given.** Neither is overwritten: HP drives the
  compatibility check and kW drives the FLC, even when the two disagree
  (`BothUnitsKept`).
- **No input-range check.** The code does not check the range of voltage,
  power factor or efficiency. A non-positive value is not rejected. Only a
  zero denominator fails: the division by zero is caught by the catch-all
  handler, which is `Err(InternalError)` here.
- **Autotransformer.** It can pass the compatibility check but has no
  contactor arrangement, so the answer is "no suitable contactors"
  (`UnhandledMethodRejected`).
- **VFD contactor key.** The VFD contactor is stored under the bypass key
  and listed as "Input Contactor". The orchestrator's `input_contactor`
  lookup never finds anything (`PrimaryNeverInput`).

## Model

| member | source | states |
|---|---|---|
| `Electrical.RawFullLoadCurrent` | src/routes/switchgear.py:14-16 | the unrounded current is the one at which sqrt(3) x V x pf x eff x I gives back the power in watts |
| `Electrical.FullLoadCurrent` | src/routes/switchgear.py:12-17 | fails exactly when sqrt(3) x V x pf x eff is zero (the division by zero); otherwise the unrounded current rounded to 2 decimals |
| `Electrical.RawFlcIncreasingInPower` | src/routes/switchgear.py:14-16 | with positive sqrt(3), voltage, pf and efficiency, more power never gives less current |
| `Electrical.RawFlcDecreasingInVoltage` | src/routes/switchgear.py:16 | for non-negative power, a higher voltage never gives more current |
| `Electrical.RawFlcDecreasingInPowerFactor` | src/routes/switchgear.py:16 | for non-negative power, a higher power factor never gives more current |
| `Electrical.RawFlcDecreasingInEfficiency` | src/routes/switchgear.py:16 | for non-negative power, a higher efficiency never gives more current |
| `Electrical.BreakerRating` | src/routes/switchgear.py:229-230 | with rounding that lands within half a hundredth, the rating is within 0.005 of 1.5 x FLC, so from 0.01 A up it is never below the FLC |
| `Electrical.FlcIncreasingInPower` | src/routes/switchgear.py:12-17 | with order-keeping rounding, the rounded FLC is defined and grows with power |
| `Compatibility.CompatibleMethods` | src/routes/switchgear.py:19-28 | a method is in the result exactly when it is in the catalog and its inclusive [min, max] HP envelope contains the power |
| `Compatibility.CompatibleMethodsAppend` | src/routes/switchgear.py:23-26 | filtering distributes over concatenation, so the result keeps catalog order |
| `Compatibility.CompatibleMethodsShorter` | src/routes/switchgear.py:23-26 | the result is never longer than the catalog, and is as long exactly when every method accepts the power |
| `Compatibility.CompatibleNameCharacterized` | src/routes/switchgear.py:217-220 | the requested name passes the check exactly when a catalog method of that name has an envelope containing the power |
| `Compatibility.GetCompatibleStartingMethods` | src/routes/switchgear.py:19-28 | the loop that appends each accepting method returns exactly the filtered list |
| `ContactorSelection.SelectBestContactor` | src/routes/switchgear.py:30-37 | None exactly when no contactor meets both minimum ratings; otherwise a catalog contactor meeting both that no qualifying contactor precedes in (rating, price) order |
| `ContactorSelection.SelectionMonotone` | src/routes/switchgear.py:30-37 | asking for a lower current rating still finds a contactor, and never a larger or later-ordered one than the higher request |
| `RelaySelection.BandRelays` | src/routes/switchgear.py:41-47 | a relay is a band candidate exactly when it is in the catalog and its range spans 0.8 x FLC to 1.2 x FLC |
| `RelaySelection.InsertByPrice` | src/routes/switchgear.py:48 | insertion into a price-sorted list keeps it sorted and adds exactly the one element |
| `RelaySelection.InsertByPriceKeepsTies` | src/routes/switchgear.py:48 | the inserted relay goes ahead of every relay of its own price; for every price, the relays already there keep their order |
| `RelaySelection.SortByPrice` | src/routes/switchgear.py:48 | the ordering by price is sorted and a permutation of its input |
| `RelaySelection.SortByPriceKeepsTies` | src/routes/switchgear.py:48 | for every price, the relays of that price come out of the ordering in catalog order: the ordering is stable |
| `RelaySelection.FirstFitting` | src/routes/switchgear.py:51-54 | None exactly when no relay of the list fits the frame; otherwise a fitting member of the list |
| `RelaySelection.FirstFittingCheapest` | src/routes/switchgear.py:48-54 | in a price-sorted list the first fitting relay is no dearer than any fitting relay |
| `RelaySelection.CheapestCovering` | src/routes/switchgear.py:57-60 | None exactly when no relay's range contains FLC; otherwise a relay containing FLC, no dearer than any other one that does |
| `RelaySelection.SelectRelay` | src/routes/switchgear.py:39-62 | a match, when there is one, is a catalog relay that either spans the band and fits the frame or at least contains FLC |
| `RelaySelection.SelectRelayPreferred` | src/routes/switchgear.py:39-54 | when some relay spans the band and fits the frame (an empty frame list fits any), the match is such a relay and the cheapest of them |
| `RelaySelection.SelectRelayFallback` | src/routes/switchgear.py:56-62 | when no relay spans the band and fits the frame, the match is exactly the cheapest relay containing FLC, frames ignored |
| `RelaySelection.SelectRelayNone` | src/routes/switchgear.py:39-62 | the match is None exactly when no relay is a first-tier match and no relay's range contains FLC |
| `RelaySelection.BandContainsPoint` | src/routes/switchgear.py:41-47 | for a non-negative FLC a range spanning the band also contains FLC |
| `RelaySelection.SelectOverloadRelay` | src/routes/switchgear.py:39-62 | the loop over price-sorted band candidates with early return, then the fallback query, returns exactly the two-tier match |
| `Topology.GenerateContactors` | src/routes/switchgear.py:64-113 | only the four named methods get an arrangement. The quantity is the number of contactors held and the total is their price sum. Main and bypass are the contactor selection at the rating; star and delta are both the selection at 0.58 of it. Star-delta entries appear only for Star-Delta, bypass only for Soft Starter and VFD. A failed selection gives None, and Star-Delta gets an arrangement whenever both the selection at the rating and the one at 0.58 of it succeed, whatever the rating's sign |
| `Topology.StarDeltaSizing` | src/routes/switchgear.py:79-100 | for a non-negative rating, Star-Delta fails exactly when the main selection fails, and its star contactor is never rated above the main one |
| `Topology.PrimaryContactor` | src/routes/switchgear.py:239-241 | the primary contactor exists exactly when the main, bypass or input key is filled, and it is one of the arrangement's contactors |
| `Topology.PrimaryNeverInput` | src/routes/switchgear.py:239-241 | every arrangement has a primary contactor, taken from main or bypass and never from the input key, and it is the selection at the breaker rating |
| `Components.ContactorLines` | src/routes/switchgear.py:119-166 | one single-unit line per contactor role of the method, in the method's role order |
| `Components.ComponentList` | src/routes/switchgear.py:115-179 | the roles are the method's contactor roles in fixed order, then "Overload Relay" last exactly when a relay is present. Every line is one unit at its unit price |
| `Components.ComponentListContactors` | src/routes/switchgear.py:119-166 | for an arrangement built for the method, the list opens with one line per contactor held, in main, star, delta, bypass order, each with that contactor's model, manufacturer and price |
| `Components.GeneratedHasRoles` | src/routes/switchgear.py:119-166 | an arrangement built for a method holds every key that method's branch of the parts list reads |
| `Components.ComponentListTotal` | src/routes/switchgear.py:115-179 | the parts list of an arrangement adds up to the arrangement's total plus the relay price, if any |
| `Components.GenerateComponentList` | src/routes/switchgear.py:115-179 | the append/extend steps build exactly the specified parts list |
| `Orchestration.NormalizePower` | src/routes/switchgear.py:205-211 | fails exactly when neither unit is given (zero counts as absent). A given unit is kept, and a derived one is in the 0.746 kW/HP ratio to it |
| `Orchestration.Recommend` | src/routes/switchgear.py:205-274 | the answer succeeds exactly when every check passes (power given, method named and compatible, non-zero FLC denominator, arrangement found); a success is for the requested method and lists the methods fitting the HP |
| `Orchestration.SelectParts` | src/routes/switchgear.py:226-236 | the internal error exactly on a zero FLC denominator, otherwise "no suitable contactors" exactly when no arrangement is found at round(FLC x 1.5, 2); a success carries that FLC, rating and arrangement |
| `Orchestration.Assemble` | src/routes/switchgear.py:238-274 | a relay, if any, is a catalog relay preferred for the primary contactor's frame or at least containing FLC; the total is round(contactors + relay price, 2); the parts list has the method's roles, then the relay's |
| `Orchestration.CalculateRecommendation` | src/routes/switchgear.py:197-274 | the endpoint body gives exactly the answer `Recommend` specifies, including which check fails first. The body reassigns the power variables, returns early at each failed check, then hands over to `AssembleRecommendation` |
| `Orchestration.RecommendValidation` | src/routes/switchgear.py:205-224 | exact conditions for the missing-power, missing-method and incompatible-method errors. The incompatible answer carries the compatible list |
| `Orchestration.AssembleRecommendation` | src/routes/switchgear.py:238-274 | picking the relay, adding its price to the total in place and building the list give exactly the specified answer |
| `Orchestration.SuccessAssembled` | src/routes/switchgear.py:205-254 | a success has passed every check: both powers set, the method named and compatible, the FLC defined, the arrangement built for round(FLC x 1.5, 2) |
| `Orchestration.RecommendSuccess` | src/routes/switchgear.py:216-249 | a success has a compatible method that has an arrangement, and a breaker of round(FLC x 1.5, 2). The primary contactor is the adequate selection at that rating. The contactor count and total are exact |
| `Orchestration.RecommendStarDelta` | src/routes/switchgear.py:79-100 | in a success, star and delta contactors are present exactly for Star-Delta, and both are the contactor selection at 0.58 of the breaker rating |
| `Orchestration.RecommendRelayAndCost` | src/routes/switchgear.py:238-271 | the relay is the two-tier match for the primary contactor's frame. The total is round(contactors + relay price, 2), and the parts list sums to the unrounded total |
| `Orchestration.UnhandledMethodRejected` | src/routes/switchgear.py:233-236 | a compatible method with no arrangement is never a success: once the FLC is defined the answer is "no suitable contactors" |
| `Orchestration.MissingRelayTolerated` | src/routes/switchgear.py:243-251 | when every check passes but no relay contains the (non-negative) FLC, the answer still succeeds, with no relay, a total of the contactors alone and no relay line |
| `Orchestration.BothUnitsKept` | src/routes/switchgear.py:206-227 | with both units given, HP drives the compatibility list and kW drives the FLC |
| `SeedScenarios.SeedFilter` | init_database.py:43-92 | the seeded methods filter one row at a time |
| `SeedScenarios.SeedCompatibleAt1Hp` | init_database.py:43-92 | a 1 HP motor may use DOL and VFD only |
| `SeedScenarios.SeedCompatibleAt5Hp` | init_database.py:43-92 | a 5 HP motor may use DOL, Soft Starter and VFD: 5 HP is the inclusive top of DOL's envelope and the bottom of Soft Starter's |
| `SeedScenarios.SeedCompatibleAt30Hp` | init_database.py:43-92 | a 30 HP motor may use every seeded method but DOL |
| `SeedScenarios.SeedCompatibleAt10Hp` | init_database.py:43-92 | a 10 HP motor may use Soft Starter and VFD only |
| `SeedScenarios.SeedDolTooLarge` | init_database.py:43-92 | a 10 HP DOL request is refused with Soft Starter and VFD offered |
| `SeedScenarios.SeedContactorChoice` | init_database.py:106-145 | for 20 A the cheapest seeded 25 A contactor wins over the dearer 25 A ones and the too-small 18 A ones |
| `SeedScenarios.SeedBandRelaysAt08` | init_database.py:162-180 | at 0.8 A both 0.63-1.0 A relays span the band and the 1.0-1.6 A one does not |
| `SeedScenarios.SeedBandAt08` | init_database.py:162-180 | at 0.8 A the band candidates in price order are the two 0.63-1.0 A relays, the cheaper first |
| `SeedScenarios.SeedRelayByFrame` | init_database.py:162-180 | at 0.8 A the frame picks between the two band candidates, even the dearer one |
| `SeedScenarios.SeedRelayFallback` | init_database.py:162-180 | at 0.8 A a frame no relay lists gets the cheapest relay containing 0.8 A |

## Left out

- HTTP transport is not modelled: the blueprint, `request.json`, `jsonify`, status codes, the OPTIONS answer and the "No data provided" check on an empty body. Error messages are reduced to the `Error` constructors.
- An explicit JSON `null` in the request is not distinguished from a missing field; both are `None`, so defaults apply to both.
- The catch-all handler is modelled only for the fault the algorithm itself can raise, the division by zero in the FLC formula. Faults from wrong JSON types or the database are out of scope.
- The GET listing endpoints, `src/main.py` (application wiring) and the database session writes of `init_database.py` are not part of this model.
- `json.loads` of a relay's frame list is not modelled; the list is taken already parsed, with an absent value as the empty list. Nullable catalog columns are taken as present.
- Floating point is not modelled: values are exact reals, and `sqrt(3)` and `round` are parameters.
- Electrical.FullLoadCurrent: the rounded value is only as good as the `round` parameter; claims about the rounded FLC assume rounding that keeps order.
- ContactorSelection.SelectBestContactor: among entries equal in rating and price the database's order is unspecified. The model takes the first in catalog order, and its contract claims only minimality.
- RelaySelection.SelectRelay: the same holds for relays of equal price. In both tiers the model takes them in catalog order (the band ordering is stable, the fallback takes the first), and its contracts claim only minimality.
- Orchestration.MissingRelayTolerated: stated for a non-negative FLC only. For a negative FLC (a negative power) the band and the point checks need not agree.
- The `phases` argument of the FLC function is never read by the source and is not modelled.
- The match-quality flag that would tell a first-tier relay from a fallback relay does not exist in the code and is not added.
