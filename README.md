# FastFoodDelivery core, modelled in Dafny

FastFoodDelivery is a React Native food-ordering app with a mock Express backend. This project models the parts of it that hold state or compute:

- **The cart store** (`CartContext`): the cart lines, the selected delivery option and the last placed order. It covers adding an item (merged by item id and notes), removing and re-quantifying lines, choosing a delivery option, and the derived item count, goods total and delivery fee.
- **The mock server** (`MockServer`):
  - the fixed table of eight restaurants;
  - the four JSON routes: restaurant list, menu, single menu item and order creation;
  - the route-calculation stub.
- **The menu item screen** (`MenuItemDetail`): a quantity stepper that never goes below one, a notes field, and the add-to-cart button with the total it shows.
- **The cart screen** (`CartScreen`): the `+`/`-` buttons, the goods subtotal, the payment choice and the checkout sequence (build payload, create order, clear cart, record order).
- **The home screen's rider tracking** (`RiderTracking`): after an order is placed, a 60-second countdown drives the status message. The rider moves in a straight line from the restaurant to the user and arrives five seconds before the end. The map region is fitted around user, restaurant and rider, and a label shows the remaining time as `m:ss`.

Pure logic is written as datatypes and functions. The stateful parts are classes whose methods are proved equal to those functions:

- `CartStore` is the context provider's state.
- `RiderTracker` is the home screen's tracking state.
- `MenuItemDetailScreen` and `CartScreenState` hold the two screens' local state.

How the two effects are sequenced is part of the model:
- A timer firing lowers the countdown and re-runs the tracking effect on the new value.
- A change of the placed order is modelled as its intended behaviour: the order effect runs, and the tracking effect then runs on the values the order effect just set. The source does not do this. In one React commit the tracking effect reads the previous render's countdown and completion flag (see "## Findings"). That stale-read commit is modelled separately, by `RiderTracking.OrderChangedAsWritten`.

The app computes the rider position and the region in IEEE doubles. Here they are exact reals.

## Model

| member | source | states |
|---|---|---|
| `Common.Decimal` | my-app/screens/HomeScreen.js:297 | `n.toString()` of a natural number: at least one character, all digits, one digit exactly when below ten, no leading zero otherwise, and the digits read back in base ten as `n` |
| `Common.PadStart2` | my-app/screens/HomeScreen.js:297 | `padStart(2, '0')`: the result is two long (or the input if longer), ends with the input and is zero-filled in front |
| `CartContext.FindLine` | my-app/context/CartContext.js:24-26 | `findIndex` on item id and notes: -1 exactly when no line matches, otherwise the first matching index |
| `CartContext.AddLine` | my-app/context/CartContext.js:22-37 | an add grows the cart by at most one line, always leaves a line for that item and notes, and keeps every line with another item or other notes in place |
| `CartContext.AddMergesMatchingLine` | my-app/context/CartContext.js:22-31 | adding an item whose id and notes match a line raises that first matching line's quantity by the amount added and leaves every other line and the length unchanged |
| `CartContext.AddAppendsNewLine` | my-app/context/CartContext.js:32-37 | with no matching line, the old lines are kept in order and one new line (item, quantity, notes, unique id) is appended |
| `CartContext.DifferentNotesMakeSeparateLines` | my-app/context/CartContext.js:25 | the same item added twice, to any cart, with different notes gives two different lines, one per notes, and the second add leaves every line of the first notes unchanged |
| `CartContext.AddRaisesTotals` | my-app/context/CartContext.js:22-39 | adding raises the item count by the quantity; when the cart's lines for that id carry the same item record, the goods total rises by price times quantity |
| `CartContext.RemoveLines` | my-app/context/CartContext.js:41-45 | filter by unique id: exactly the lines with another id remain, never longer, and an unknown id leaves the cart unchanged |
| `CartContext.RemoveLinesConcat` | my-app/context/CartContext.js:41-45 | removal distributes over concatenation (order of the remaining lines is kept) |
| `CartContext.SetQuantity` | my-app/context/CartContext.js:50-55 | the `map` step: same length; lines with the id get the new quantity, the rest are unchanged |
| `CartContext.KeepPositive` | my-app/context/CartContext.js:56 | the `filter` step: never longer; exactly the lines with positive quantity remain; an all-positive cart is unchanged |
| `CartContext.KeepPositiveConcat` | my-app/context/CartContext.js:56 | the filter distributes over concatenation, so the surviving lines keep their order and multiplicity |
| `CartContext.SetQuantityConcat` | my-app/context/CartContext.js:51-55 | the `map` step distributes over concatenation |
| `CartContext.UpdateQuantity` | my-app/context/CartContext.js:47-58 | the set-then-filter never lengthens the cart and leaves only lines of positive quantity |
| `CartContext.UpdateQuantityConcat` | my-app/context/CartContext.js:47-58 | the update distributes over concatenation, so the lines that stay keep their order and multiplicity |
| `CartContext.UpdateQuantitySetsOrDrops` | my-app/context/CartContext.js:47-58 | after an update every line is positive; lines with the id carry the new quantity, or are gone when it is at most zero; other positive lines survive; every line of the result is an old line with another id or an old line with the id and the new quantity |
| `CartContext.UpdateQuantityTotals` | my-app/context/CartContext.js:47-58 | on a positive cart with unique ids, the item count changes by the new quantity (zero if not positive) minus the old one |
| `CartContext.SumConcat` | my-app/context/CartContext.js:71-81 | the `reduce` sums of a concatenation add up |
| `CartContext.SumQuantities` | my-app/context/CartContext.js:71-73 | the item count of an empty cart is 0; with all quantities positive it is at least the number of lines |
| `CartContext.SumPrices` | my-app/context/CartContext.js:76-79 | the goods total of an empty cart is 0; with prices and quantities non-negative it is non-negative |
| `CartContext.SumPositiveOfPositive` | my-app/context/CartContext.js:71-73 | on an all-positive cart, counting only positive quantities gives the item count |
| `CartContext.SumKeepPositive` | my-app/context/CartContext.js:50-73 | the item count after the positive filter is the sum of the positive quantities |
| `CartContext.PositiveLinesPreserved` | my-app/context/CartContext.js:22-45 | adding a positive quantity and removing a line keep every quantity positive |
| `CartContext.FindOption` | my-app/context/CartContext.js:62 | `find` on option id: a found option is one of the options with that id; none found means no option has it |
| `CartContext.SelectOption` | my-app/context/CartContext.js:60-64 | the chosen option is always one of the three delivery options |
| `CartContext.SelectOptionFindsOrFallsBack` | my-app/context/CartContext.js:60-65 | the chosen option is always one of the three; a known id selects its option, an unknown one falls back to Standard (fee 30) |
| `CartContext.CartStore.constructor` | my-app/context/CartContext.js:16-20 | empty cart, Standard delivery, no placed order, item count 0, fee 30 |
| `CartContext.CartStore.TotalItems` | my-app/context/CartContext.js:71-73 | 0 for an empty cart; in a valid store (all quantities positive) at least the number of lines |
| `CartContext.CartStore.TotalPrice` | my-app/context/CartContext.js:75-81 | just the delivery fee for an empty cart; in a valid store with non-negative prices at least the fee |
| `CartContext.CartStore.DeliveryFee` | my-app/context/CartContext.js:93 | in a valid store the fee is 50, 30 or 15, the fee of one of the three options |
| `CartContext.CartStore.AddToCart` | my-app/context/CartContext.js:22-39 | for a positive quantity, the new lines are `AddLine` of the old, the item count rises by the quantity, option and order unchanged, and every line stays positive |
| `CartContext.CartStore.RemoveFromCart` | my-app/context/CartContext.js:41-45 | the new lines are `RemoveLines` of the old; nothing else changes |
| `CartContext.CartStore.UpdateItemQuantity` | my-app/context/CartContext.js:47-58 | the new lines are the set-then-filter of the old and all positive; nothing else changes |
| `CartContext.CartStore.UpdateDeliveryOption` | my-app/context/CartContext.js:60-65 | the option becomes the one found or Standard; the store stays valid (option among the three) |
| `CartContext.CartStore.ClearCart` | my-app/context/CartContext.js:67-69 | no lines, item count 0; option and order unchanged |
| `CartContext.CartStore.SetLastPlacedOrder` | my-app/context/CartContext.js:20 | the order is replaced; lines and option unchanged |
| `MockServer.FindById` | server/server.js:79-82 | `find` by id, used for restaurants and for menu items: none exactly when no element has the id, otherwise the first element that does |
| `MockServer.OrderId` | server/server.js:55 | `'mock-' + Date.now()`: the prefix `mock-` followed by digits only, and those digits read back as the time |
| `MockServer.NewOrder` | server/server.js:54-59 | the new order's keys are the body's plus `orderId`, `status` and `restaurantOriginLocation`; the origin is always the server's; `status` and `orderId` default to "pending" and the generated id; every other body field is kept |
| `MockServer.ListRestaurants` | server/server.js:30-33 | 200 with one summary per restaurant, in table order, every field but the menu kept |
| `MockServer.GetMenu` | server/server.js:35-44 | 200 exactly when a restaurant has the id, with that restaurant's menu; otherwise 404 "Restaurant not found" |
| `MockServer.GetMenuItem` | server/server.js:77-91 | unknown restaurant gives 404 "Restaurant not found" before the item is looked at; then 200 with an item of that restaurant's menu carrying the id, or 404 "Menu item not found" |
| `MockServer.PostOrder` | server/server.js:46-61 | 201; the keys are the body's plus `orderId`, `status`, `restaurantOriginLocation`; the origin is always the server's; `status`/`orderId` default to "pending"/`mock-<now>` unless the body sets them; every other body field is echoed |
| `MockServer.CalculateRoute` | server/server.js:64-74 | missing API key gives 500 first, then a missing or empty origin or destination gives 400; 200 exactly when all are given, echoing them |
| `MockServer.TableIdsDistinct` | server/server.js:15-24 | the table holds eight restaurants with ids "1" to "8", pairwise different |
| `MockServer.LookupUnambiguous` | server/server.js:15-44 | looking up any table entry's id finds that very entry, and its menu route answers 200 with its menu |
| `MenuItemDetail.StepperRoundTrip` | my-app/screens/MenuItemDetailScreen.js:41-47 | from quantity >= 1, `-` stays >= 1; `-` undoes `+`; `+` undoes `-` above one; at one `-` stays at one |
| `MenuItemDetail.PressesStayPositive` | my-app/screens/MenuItemDetailScreen.js:34-47 | any sequence of presses from >= 1 stays between 1 and the start plus the number of `+` presses |
| `MenuItemDetail.Increased` | my-app/screens/MenuItemDetailScreen.js:42 | `+` raises the quantity by exactly one |
| `MenuItemDetail.Decreased` | my-app/screens/MenuItemDetailScreen.js:46 | `-` lowers a quantity above one by one and otherwise gives one; the result is always at least one |
| `MenuItemDetail.MenuItemDetailScreen.constructor` | my-app/screens/MenuItemDetailScreen.js:34-35 | quantity 1, empty notes |
| `MenuItemDetail.MenuItemDetailScreen.IncreaseQuantity` | my-app/screens/MenuItemDetailScreen.js:41-43 | quantity + 1, notes kept |
| `MenuItemDetail.MenuItemDetailScreen.DecreaseQuantity` | my-app/screens/MenuItemDetailScreen.js:45-47 | quantity - 1 above one, else one; notes kept; stays >= 1 |
| `MenuItemDetail.MenuItemDetailScreen.SetNotes` | my-app/screens/MenuItemDetailScreen.js:35 | notes replaced, quantity kept |
| `MenuItemDetail.MenuItemDetailScreen.ButtonTotal` | my-app/screens/MenuItemDetailScreen.js:103 | the amount on the button is at least one unit price, for a quantity of at least one and a non-negative price |
| `MenuItemDetail.MenuItemDetailScreen.AddToCart` | my-app/screens/MenuItemDetailScreen.js:49-52 | the cart gets `AddLine` of the screen's item, quantity and notes; its item count rises by the quantity and, with a consistent catalog, its goods total by the amount shown on the button |
| `CartScreen.LinesJson` | my-app/screens/CartScreen.js:267 | one JSON object per cart line, in order |
| `CartScreen.LineJson` | my-app/screens/CartScreen.js:267 | a cart line serialises to the seven fields of the item spread with quantity, notes and unique id, carrying the line's id, quantity, notes and unique id |
| `CartScreen.Payload` | my-app/screens/CartScreen.js:266-272 | the payload has exactly the five keys, with the cart lines, the total price and the chosen payment method |
| `CartScreen.IncreaseAddsOne` | my-app/screens/CartScreen.js:70-72 | `+` on a line keeps the cart's length, puts the line with quantity + 1 in the cart and raises the item count by one |
| `CartScreen.DecreaseRemovesAtOne` | my-app/screens/CartScreen.js:74-76 | `-` lowers the item count by one; the line disappears exactly when its quantity was one, otherwise it stays with quantity - 1 |
| `CartScreen.PlusOnShownLine` | my-app/screens/CartScreen.js:70-72 | `+` on a line shown in a positive cart, whose unique id no other line carries, keeps the length and raises the item count by one |
| `CartScreen.MinusOnShownLine` | my-app/screens/CartScreen.js:74-76 | `-` on such a line lowers the item count by one and drops a line exactly when its quantity was one |
| `CartScreen.CheckoutOrderFields` | my-app/screens/CartScreen.js:266-273 | the server's answer to the checkout payload is 201, "pending", carries the server's order id and echoes every payload field |
| `CartScreen.CheckoutOrderStartsTrip` | my-app/screens/CartScreen.js:273-275 | the order recorded at checkout starts a trip on the home screen: restaurant at the server's origin, Searching, 60 seconds, timer pending |
| `CartScreen.CartScreenState.constructor` | my-app/screens/CartScreen.js:55-64 | cash selected (the first payment option) and the default delivery region |
| `CartScreen.CartScreenState.SelectPayment` | my-app/screens/CartScreen.js:62-64 | the payment becomes the chosen one; the location is kept |
| `CartScreen.CartScreenState.IncreaseQuantity` | my-app/screens/CartScreen.js:70-72 | the cart's lines become the update to quantity + 1; for a line shown in the cart whose unique id no other line carries, the cart keeps its length and the item count rises by one |
| `CartScreen.CartScreenState.DecreaseQuantity` | my-app/screens/CartScreen.js:74-76 | the cart's lines become the update to quantity - 1; for a line shown in the cart whose unique id no other line carries, the item count falls by one and the cart loses a line exactly when the quantity was one |
| `CartScreen.CartScreenState.Subtotal` | my-app/screens/CartScreen.js:245 | total price minus delivery fee is exactly the goods total |
| `CartScreen.CartScreenState.Checkout` | my-app/screens/CartScreen.js:264-281 | the payload is built from the state before the call; on a created order the cart is emptied and then the order recorded; on failure the cart and order are unchanged; the option is kept |
| `RiderTracking.Progress` | my-app/screens/HomeScreen.js:131-133 | progress is in [0, 1] over the trip, 0 at the start, 1 from five seconds before the end |
| `RiderTracking.Between` | my-app/screens/HomeScreen.js:135-136 | interpolation with a factor in [0, 1] stays between the two end values |
| `RiderTracking.Lerp` | my-app/screens/HomeScreen.js:135-137 | the interpolated point is the start at 0, the end at 1, and between them coordinate by coordinate for factors in [0, 1] |
| `RiderTracking.RiderAt` | my-app/screens/HomeScreen.js:131-137 | the rider is at the restaurant with 60 seconds left and at the user from five seconds left |
| `RiderTracking.RiderPath` | my-app/screens/HomeScreen.js:131-137 | the rider is at the restaurant at 60, at the user from 5 down, and always on the segment between them |
| `RiderTracking.Min3` | my-app/screens/HomeScreen.js:147-149 | `Math.min` of three values: at most each of them and equal to one of them |
| `RiderTracking.Max3` | my-app/screens/HomeScreen.js:148-150 | `Math.max` of three values: at least each of them and equal to one of them |
| `RiderTracking.FitRegion` | my-app/screens/HomeScreen.js:143-157 | the region is centred on the midpoint of the three points' extremes; each span is exactly the larger of 0.01 and 1.5 times the extent; so it covers all three points and is at least 1.5 times each pairwise distance; on a degenerate axis it is centred on the point with span 0.01 |
| `RiderTracking.PointOf` | my-app/screens/HomeScreen.js:86-88 | a location is read exactly when it is an object with numeric `latitude` and `longitude`, and the point carries those two numbers |
| `RiderTracking.OriginOf` | my-app/screens/HomeScreen.js:86-92 | an order without `restaurantOriginLocation` starts at the fallback origin; a well-formed origin is used as given |
| `RiderTracking.StartBlock` | my-app/screens/HomeScreen.js:81-92 | the order effect records the order; for an uncompleted order it sets Searching, 60 seconds, not complete, and restaurant and rider at the order's origin; otherwise nothing else changes; it keeps the invariant |
| `RiderTracking.EffectOn` | my-app/screens/HomeScreen.js:115-158 | the tracking effect, reading one state and writing into another, never changes the order, countdown or restaurant, and does nothing without an order or once complete |
| `RiderTracking.TrackingEffect` | my-app/screens/HomeScreen.js:115-158 | the tracking effect on fresh values keeps order, countdown and restaurant, and leaves a state with no order or a complete one as it is |
| `RiderTracking.OrderChanged` | my-app/screens/HomeScreen.js:81-92 | the intended response to a new placed order: the order is recorded, and an uncompleted order restarts at 60 seconds, Searching, not complete, timer pending |
| `RiderTracking.Ticked` | my-app/screens/HomeScreen.js:160-162 | a tick keeps order and restaurant and lowers the countdown by one exactly when a timer is pending |
| `RiderTracking.Dismissed` | my-app/screens/HomeScreen.js:306 | dismissing leaves no order and no timer pending |
| `RiderTracking.InitialInv` | my-app/screens/HomeScreen.js:44-59 | the initial state satisfies the invariant and has no timer pending |
| `RiderTracking.EffectInv` | my-app/screens/HomeScreen.js:115-167 | the tracking effect restores the invariant (rider where the countdown puts it, region bounds) and never changes the countdown or restaurant |
| `RiderTracking.OrderChangedStarts` | my-app/screens/HomeScreen.js:81-92 | a new uncompleted order restarts the trip: 60 s, Searching, not complete, restaurant and rider at its origin (or the fallback), region fitted, timer pending |
| `RiderTracking.TickStep` | my-app/screens/HomeScreen.js:115-162 | a tick keeps the invariant and lowers the countdown by one exactly when a timer is pending; RiderFound at 50, PickedUp at 20, Arrived and complete at 0, otherwise the status is kept |
| `RiderTracking.TickMovesRider` | my-app/screens/HomeScreen.js:130-157 | while running, a tick moves the rider to its place for the new countdown, on the segment, and refits the region around user, restaurant and rider |
| `RiderTracking.StoppedIsStable` | my-app/screens/HomeScreen.js:116-121 | with no timer pending, ticks change nothing; a completed state is a fixed point of the effect |
| `RiderTracking.DismissStops` | my-app/screens/HomeScreen.js:306 | dismissing clears the order, keeps the invariant and leaves no timer to fire |
| `RiderTracking.TripStep` | my-app/screens/HomeScreen.js:115-167 | one tick of a running trip is exactly one second further along it |
| `RiderTracking.TripRuns` | my-app/screens/HomeScreen.js:81-167 | after k <= 60 ticks a trip has 60 - k seconds left, with the status for that time, the rider at its place and completion exactly at 0 |
| `RiderTracking.TripReachesUser` | my-app/screens/HomeScreen.js:133-137 | after 55 ticks the rider is at the user |
| `RiderTracking.TripEnds` | my-app/screens/HomeScreen.js:116-121 | after 60 ticks the order is complete with status Arrived, and further ticks change nothing |
| `RiderTracking.ServerOrderStartsAtOrigin` | my-app/screens/HomeScreen.js:86-88 | an order built by the mock server starts its trip at the server's fixed origin |
| `RiderTracking.CountdownLabelFormat` | my-app/screens/HomeScreen.js:295-299 | the label is shown exactly while the countdown is positive, as minutes, a colon and two-digit seconds |
| `RiderTracking.CountdownLabel` | my-app/screens/HomeScreen.js:295-299 | a label is shown exactly while the countdown is positive; it ends with a colon and two digits |
| `RiderTracking.CountdownLabelAtStart` | my-app/screens/HomeScreen.js:295-299 | the label reads "1:00" at the start |
| `RiderTracking.CountdownLabelAfterOneSecond` | my-app/screens/HomeScreen.js:295-299 | the label reads "0:59" one second after the start |
| `RiderTracking.FirstOrderArrivesAtOnce` | my-app/screens/HomeScreen.js:81-121 | as written, the first order after launch is shown Arrived and complete at once with no timer; the intended start is Searching with a timer |
| `RiderTracking.OrderChangedAsWritten` | my-app/screens/HomeScreen.js:81-121 | the commit as written: from a state at countdown 0 and not complete, a new uncompleted order ends Arrived and complete, at 60 seconds, with no timer pending |
| `RiderTracking.RiderTracker.constructor` | my-app/screens/HomeScreen.js:44-59 | the screen's initial tracking state |
| `RiderTracking.RiderTracker.RunEffect` | my-app/screens/HomeScreen.js:115-158 | the tracking effect performed in place equals `TrackingEffect` of the old state and restores the invariant |
| `RiderTracking.RiderTracker.OnOrderChanged` | my-app/screens/HomeScreen.js:81-92 | the new state is `OrderChanged` of the old; the invariant is kept |
| `RiderTracking.RiderTracker.Tick` | my-app/screens/HomeScreen.js:160-162 | the new state is `Ticked` of the old; the countdown drops by one exactly when a timer was pending |
| `RiderTracking.RiderTracker.Dismiss` | my-app/screens/HomeScreen.js:306 | the store's placed order is set to none, its lines and option are kept, and the tracker follows it: the new state is `Dismissed` of the old, with no order and no timer pending |
| `RiderTracking.RiderTracker.Observe` | my-app/screens/HomeScreen.js:81-113 | the tracker takes the store's placed order; it restarts the trip (`OrderChanged`) only when that order differs from the one it holds, and otherwise changes nothing |

## Left out

- HTTP and `fetch` are left out. `createOrder` (my-app/api/mockApi.js) becomes the `CreateOrderOutcome` parameter of `Checkout`: either the parsed body or a rejection. `createOrder` does not check `response.ok`, so a parsed error body would be recorded as the placed order. The model allows that by taking any map.
- Timers, React rendering and the promotion carousel (HomeScreen.js:99-112) are left out. A tick is the timer's callback followed by the effect it triggers.
- `CartContext.CartStore.AddToCart` replaces the matched line by value. The source increments the quantity on the existing object in place (CartContext.js:30), which aliases the previous state array. Any other holder of that object would see the change, and the model does not capture that.
- `Date.now()` gives the new line's unique id and the server's order id. Both are parameters here. Unique ids are not assumed distinct, except where a lemma requires it.
- Floating point: coordinates, progress and region spans are exact reals, so rounding is not modelled.
- `RiderTracking.OriginOf`: an origin that is present but lacks numeric latitude and longitude is read as the fallback origin. The app would instead compute with `undefined`. The mock server always sends a well-formed origin.
- The check that the rider moved before setting it (HomeScreen.js:139) has no observable effect on values. It is modelled, but no lemma depends on it.
- `MockServer.CalculateRoute`: the API key is a boolean for "configured". A query parameter repeated into an array is not modelled.
- `MockServer.PostOrder`: a request without a JSON body (`req.body` undefined) is taken as an empty object.
- `MockServer.GetMenu`: `restaurant.menu || []` is modelled as the menu itself, because every table entry has one.
- Express plumbing, CORS, logging, the welcome route and `listen` are left out.
- Display-only text is left out: Thai status messages become the `RiderStatus` enumeration, and the `toLocaleString` formatting and navigation calls are omitted.
- JSON key order is not modelled, because objects are maps.
- The home screen's restaurant list loading, the login modal, the restaurant detail screen and the waiting screen are not part of this model.
- `RiderTracking.OrderChanged` and `RiderTracking.RiderTracker.OnOrderChanged` run the tracking effect on the values the order effect has just set. This is the intended behaviour, not what React does in that commit. `OrderChangedStarts`, the trip lemmas (`TripRuns`, `TripReachesUser`, `TripEnds`) and `CartScreen.CheckoutOrderStartsTrip` therefore describe the intended trip. The stale-read commit the source performs is modelled only by `RiderTracking.OrderChangedAsWritten`.
- `RiderTracking.RiderTracker.Observe` compares the store's order with the tracker's by value. React re-runs the effect when the object's reference changes, so placing an equal order object again would restart the trip in the app but not here.
- The tracking effect uses the fixed `userLocation` as the destination, not the order's `deliveryLocation`. The model follows the code.

## Findings

| source | as written | input that shows it | evidently intended | confidence | as-written member | corrected member |
|---|---|---|---|---|---|---|
| my-app/screens/HomeScreen.js:81-92, 115-121 | Both effects run after the render in which `lastPlacedOrder` changes. The tracking effect reads that render's countdown and completion flag, not the ones the order effect just set. Its updates are batched after the order effect's. | The first order placed after launch: countdown 0, not complete. The tracking effect sees a placed order at countdown 0 and marks it Arrived and complete, so the trip never runs. | The trip starts: Searching, 60 seconds, timer running. | not executed; medium (depends on React running both effects in that commit, as it does for effects declared in this order) | `RiderTracking.OrderChangedAsWritten`, `RiderTracking.FirstOrderArrivesAtOnce` | `RiderTracking.OrderChanged`, `RiderTracking.OrderChangedStarts` |
