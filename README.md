# Salon storefront — a verified model of the booking, shop and admin core

This project models, in Dafny, the logic at the heart of a hair-salon web
application written in TypeScript/React on top of Firebase. The application
lets a customer book a stylist for one or more services, shop for hair-care
products, and pay at checkout. It also gives an administrator screens for
users, appointments, orders, services, stylists and revenue statistics.

The model covers five groups of code:

- **Booking.** The time-slot generator and the booking store, in
  `slots.dfy`, `booking_store.dfy` and `clock.dfy`. The four-step booking
  flow and its per-step reset are in `booking_flow.dfy` and
  `booking_screen.dfy`. That screen also normalises the service and stylist
  documents read from Firestore. The service toggle on the first step is in
  `service_selection.dfy`.
- **Shop.** The cart and checkout store, in `shop_store.dfy`.
- **Product list.** Filtering by category and search term, and sorting by
  price, novelty or featured flag, in `product_filter.dfy`.
- **Payment.** The card-number, expiry and CVC field formatters, in
  `payment_format.dfy`.
- **Admin.** The admin store's cursor pagination and local list updates are
  in `admin_store.dfy`. The dashboard statistics and the per-day revenue
  report are in `admin_reports.dfy`. The Orders, Appointments and Users
  screens are in `admin_screens.dfy`.

Shared helpers are in `common.dfy`. That file defines `Option`/`Result`, the
sequence filter and sum, and the text helpers used by the formatters and
searches: digit extraction, `parseInt` and ASCII lower-casing.

State that the source keeps in a store or a React component becomes a
Dafny `class`, and each action of that store or component becomes a method.
The methods are `BookingStore`, `BookingFlowHook`, `EnhancedBooking`,
`ShopStore`, `AdminStore` and the three admin screens. Every method's
`ensures` gives the new state in terms of a pure function of the old state.
The lemmas then prove what the source relies on about that function.

The methods give the store's new state, the outcome of each Firestore write
and the data each read returns. Loops of the source become methods with
loop invariants: the slot generator, the statistics pass and the revenue
report. Each is proved equal to a recursive specification function.

Times of day are minutes since midnight. They are parsed strictly from
`"HH:MM"` by `Clock.ParseTime`, and `Clock.FormatTime` is its proved
inverse. Money is in integer units.

A stylist id is an `Option<int>`. `None` stands for the `NaN` that
`parseInt` yields for a non-numeric Firestore document id. `NaN` never
equals anything, so `SameId` holds only between two equal `Some` values.

### Behaviour of the code worth knowing

- **Cancelled appointments still block their slot.** The conflict test in
  `generateTimeSlots` does not look at the appointment's status
  (`Slots.StatusIsIgnored`).
- **`cancelAppointment` updates memory only after the write.** The local
  list changes only once the Firestore write has succeeded, and a failed
  write leaves it untouched (`Booking.BookingStore.CancelAppointment`).
- **`addService` does not deduplicate.** Only the first step's toggle keeps
  service ids unique (`ServiceSelection.ToggleKeepsUnique`).
- **Step-two reset clears the date to `""`, not to null.** This is still not
  bookable (`BookingFlow.ResetBlocksBooking`).
- **An appointment's end time wraps past midnight** (`Booking.EndTimeWraps`).
  The slot conflict test is a three-way comparison, not a half-open interval
  test. The two agree whenever the booked interval does not wrap
  (`Slots.ThreeWayIsHalfOpen`) and differ when it does
  (`Slots.WrappedEndDiffers`).
- **A stylist read from Firestore carries a list of working-hour ranges.**
  The slot generator expects one start/end pair, so it cannot produce slots
  for such a stylist (`BookingScreen.FetchedStylistHasNoSlots`).
- **West of UTC the slots are a day early.** `new Date(date)` is midnight
  UTC, which is the evening before in such a zone, and `setHours` places
  the slots on that earlier day. Appointment times are read on the date
  itself, so no slot that ends before midnight ever conflicts
  (`Slots.WindowSlotAvailable`, `Slots.WestOfUtcNeverBlocks`).
- **West of UTC the 1st of a month counts in the month before.** The
  dashboard reads an appointment's month from the same UTC midnight, so the
  1st of January adds to December of the previous year
  (`AdminReports.FirstOfMonthWestOfUtc`, `AdminReports.NewYearWestOfUtc`).
- **`parseInt` without a radix reads `0x` numerals as hexadecimal.** A
  stylist document id such as "0x1f" becomes 31 (`Text.ParseIntHex`).

## Model

| member | source | states |
|---|---|---|
| Clock.ParseTime | src/store/bookinStore.ts:86-93 | a time parses exactly when it is two digits, a colon and two digits with hour at most 23 and minute at most 59; the result is a minute of the day |
| Clock.FormatTime | src/store/bookinStore.ts:115-119 | every minute of the day is written as a well-formed "HH:MM" |
| Clock.ParseFormat | src/store/bookinStore.ts:115-119 | parsing a formatted slot time gives back the minute it was formatted from |
| Clock.FormatParse | src/store/bookinStore.ts:86-93 | formatting a parsed well-formed time gives back the same text |
| Clock.FormatInjective | src/store/bookinStore.ts:115-119 | two different minutes are never formatted as the same slot time |
| Clock.AddMinutes | src/store/bookinStore.ts:238-241 | adding a duration to a clock time stays within the day, is plain addition before midnight and wraps modulo 24 hours after it |
| BookingTypes.TotalsNonNegative | src/store/bookinStore.ts:235-236 | the total duration and total price of a selection of services with non-negative fields are non-negative |
| Slots.WindowOf | src/store/bookinStore.ts:86-93 | a working-hours window is found only for a stylist with a start/end pair, and both ends are minutes of the day |
| Slots.SlotCount | src/store/bookinStore.ts:97-122 | the number of half-hour steps from start strictly before end: the last step starts less than 30 minutes before end |
| Slots.SlotIdsDiffer | src/store/bookinStore.ts:115-119 | slots generated for two different start minutes have different ids |
| Slots.WindowSlotList | src/store/bookinStore.ts:97-122 | the list of slots of a window has one slot per half-hour step |
| Slots.EnumerateSlots | src/store/bookinStore.ts:97-122 | the loop produces exactly the slots of the window, the k-th starting at start plus 30k minutes with its availability given by the conflict test |
| Slots.WindowSlotTime | src/store/bookinStore.ts:115-121 | the k-th slot's time parses to the window start plus 30k minutes |
| Slots.WindowSlotTimesIncrease | src/store/bookinStore.ts:97-122 | later slots start strictly later than earlier ones |
| Slots.WindowSlotId | src/store/bookinStore.ts:115-119 | every slot's id is the date, a dash and the slot time |
| Slots.WindowSlotIdsDiffer | src/store/bookinStore.ts:115-119 | two different slots of one window never share an id |
| Slots.WindowSlotIdsDistinct | src/store/bookinStore.ts:97-122 | all slot ids of a window are pairwise distinct |
| Slots.GenerateTimeSlots | src/store/bookinStore.ts:75-125 | no date or an unavailable weekday gives no slots; otherwise the slots are the window's half-hour steps, each checked against the appointments at its instant in the given UTC offset, and their ids are distinct |
| Slots.LastSlotNotClipped | src/store/bookinStore.ts:97-122 | a non-empty window yields at least one slot, and the last slot starts less than 30 minutes before the end of the window |
| Slots.ThreeWayIsHalfOpen | src/store/bookinStore.ts:102-113 | for a positive duration and a non-wrapping appointment, the three-way conflict test is exactly interval overlap |
| Slots.WrappedEndDiffers | src/store/bookinStore.ts:102-113 | for an appointment that wraps past midnight the three-way test reports a conflict where interval overlap does not |
| Slots.ConflictIsOverlap | src/store/bookinStore.ts:102-113 | when every stored appointment is well-formed and non-wrapping, a slot at a given instant of the appointments' local day conflicts exactly when it overlaps an appointment of the same stylist on the same date (at a UTC offset of zero or more a slot's instant is its start time; west of UTC see Slots.WindowSlotAvailable) |
| Slots.OnlySameStylistAndDate | src/store/bookinStore.ts:102-107 | appointments of other stylists or other dates never affect whether a slot is available |
| Slots.StatusIsIgnored | src/store/bookinStore.ts:102-113 | an appointment blocks a slot whatever its status, cancelled included |
| Slots.Blocks | src/store/bookinStore.ts:102-113 | definition: an appointment blocks a slot when it has the same stylist id (never for NaN) and date, both of its times parse, and the three-way comparison holds; its properties are Slots.ThreeWayIsHalfOpen, Slots.OnlySameStylistAndDate and Slots.StatusIsIgnored |
| Slots.HasConflict | src/store/bookinStore.ts:102-113 | definition: some existing appointment blocks the slot; see Slots.ConflictIsOverlap |
| Slots.SlotOrigin | src/store/bookinStore.ts:79-93 | definition: the slots' day starts at local midnight of the date at a UTC offset of zero or more, and one day earlier west of UTC, where `new Date(date)` is the evening before |
| Slots.SlotAt | src/store/bookinStore.ts:115-119 | definition: the slot for a start minute has id date-dash-time, the formatted time, and is available when no appointment blocks it at its instant; see Slots.SlotIdsDiffer and Slots.WindowSlotTime |
| Slots.WestOfUtcNeverBlocks | src/store/bookinStore.ts:88-113 | a slot lying on the day before the appointments' date, and ending before that date starts, is blocked by no appointment |
| Slots.WindowSlotAvailable | src/store/bookinStore.ts:88-121 | at a UTC offset of zero or more a slot is available exactly when no appointment of the stylist on the date overlaps it; west of UTC every slot that ends within the day is available |
| Booking.WithoutService | src/store/bookinStore.ts:215-217 | removing a service leaves no service with that id and keeps the others in order |
| Booking.WithoutServiceKeepsOthers | src/store/bookinStore.ts:215-217 | every selected service with another id survives the removal |
| Booking.EndTime | src/store/bookinStore.ts:238-241 | the end time of a parseable start is start plus duration modulo a day, well-formed; an unparseable start gives an unparseable end |
| Booking.NewAppointmentShape | src/store/bookinStore.ts:243-255 | a new appointment is confirmed, carries the selected stylist, date, services and slot time, the services' total duration and price, and ends at the start plus the duration |
| Booking.EndTimeWraps | src/store/bookinStore.ts:238-241 | a 90-minute booking at 23:00 ends at 00:30 |
| Booking.CancelById | src/store/bookinStore.ts:283-290 | cancelling changes only the status of the appointment with that id to cancelled, and nothing else |
| Booking.CancelIdempotent | src/store/bookinStore.ts:283-290 | cancelling the same appointment twice is the same as once |
| Booking.CancelKeepsConflicts | src/store/bookinStore.ts:102-113 | cancelling an appointment does not free its slot |
| Booking.FindStylist | src/store/bookinStore.ts:298 | a stylist is found exactly when one in the list has an equal numeric id, and the one found is from the list |
| Booking.SlotDuration | src/store/bookinStore.ts:301 | the slot duration is the total service duration when it is positive, and 60 minutes otherwise |
| Booking.SeedWindowSlotCount | src/store/bookinStore.ts:131-162 | the first seeded stylist works 09:00 to 18:00, which gives 18 half-hour slots |
| Booking.BookingStore.constructor | src/store/bookinStore.ts:131-209 | the store starts with the seeded stylists and services, no appointments and an empty selection |
| Booking.BookingStore.AddService | src/store/bookinStore.ts:211-213 | the service is appended to the selection |
| Booking.BookingStore.RemoveService | src/store/bookinStore.ts:215-217 | the selection loses every service with that id |
| Booking.BookingStore.ClearServices | src/store/bookinStore.ts:219 | the selection of services becomes empty |
| Booking.BookingStore.SelectStylist | src/store/bookinStore.ts:221 | the selected stylist becomes the given one |
| Booking.BookingStore.SelectDate | src/store/bookinStore.ts:223 | the selected date becomes the given one |
| Booking.BookingStore.SelectTimeSlot | src/store/bookinStore.ts:225 | the selected time slot becomes the given one |
| Booking.BookingStore.CreateAppointment | src/store/bookinStore.ts:227-275 | a missing stylist, date, slot or service is an error that changes nothing; a failed write is an error that changes nothing; a successful write appends the new appointment and clears the selection |
| Booking.BookingStore.CancelAppointment | src/store/bookinStore.ts:277-294 | after a successful write the appointment is cancelled in memory; after a failed one nothing changes |
| Booking.BookingStore.GetStylistAvailability | src/store/bookinStore.ts:296-303 | an unknown stylist or a missing date gives no slots; otherwise the slots are generated for that stylist with the slot duration of the selection, at the given weekday and UTC offset |
| Booking.NewAppointment | src/store/bookinStore.ts:235-255 | definition: the appointment built from a complete session, with the session's stylist, date, services and slot time, their summed duration and price, the end time on the 24-hour clock and status confirmed; see Booking.NewAppointmentShape |
| BookingFlow.ResetBlocksBooking | src/screens/booking/components/hooks/useBookingFlow.ts:14-25 | after the reset for steps 1 to 3 the selection is never bookable |
| BookingFlow.ResetKeepsEarlierChoices | src/screens/booking/components/hooks/useBookingFlow.ts:14-25 | each step's reset keeps the services and the choices made on earlier steps, clears the time slot, and step 4 clears nothing |
| BookingFlow.ResetsCompose | src/screens/booking/components/hooks/useBookingFlow.ts:14-25 | resetting for a later step and then an earlier one is the same as resetting for the earlier one alone |
| BookingFlow.BookingFlowHook.constructor | src/screens/booking/components/hooks/useBookingFlow.ts:14-25 | the hook starts on step 1 and applies the step-1 reset |
| BookingFlow.BookingFlowHook.ResetForStep | src/screens/booking/components/hooks/useBookingFlow.ts:14-25 | the effect applies the current step's reset to the store's selection |
| BookingFlow.BookingFlowHook.SetStep | src/screens/booking/components/hooks/useBookingFlow.ts:14-25 | changing the step runs that step's reset; setting the same step changes nothing |
| BookingFlow.BookingFlowHook.GoToNextStep | src/screens/booking/components/hooks/useBookingFlow.ts:27-31 | the step advances by one up to step 4, stays within 1 to 4 and resets for the new step |
| BookingFlow.BookingFlowHook.GoToPreviousStep | src/screens/booking/components/hooks/useBookingFlow.ts:33-37 | the step goes back by one down to step 1, stays within 1 to 4 and resets for the new step |
| BookingFlow.BookingFlowHook.ResetFlow | src/screens/booking/components/hooks/useBookingFlow.ts:39-45 | the flow returns to step 1 with an empty selection |
| BookingFlow.StepReset | src/screens/booking/components/hooks/useBookingFlow.ts:14-25 | definition: entering step 1 clears stylist, date and slot, step 2 sets the date to "" and clears the slot, step 3 clears the slot, other steps change nothing; see BookingFlow.ResetBlocksBooking and BookingFlow.ResetKeepsEarlierChoices |
| BookingScreen.EnhancedBooking.constructor | src/screens/booking/index.tsx:85-96 | the screen starts on step 1 without a confirmation and applies the step-1 reset |
| BookingScreen.EnhancedBooking.ResetForStep | src/screens/booking/index.tsx:85-96 | the screen's effect applies the current step's reset |
| BookingScreen.EnhancedBooking.Next | src/screens/booking/index.tsx:150-158 | moving forward advances one step and resets the selection for it |
| BookingScreen.EnhancedBooking.Back | src/screens/booking/index.tsx:150-158 | moving back goes one step back and resets the selection for it |
| BookingScreen.EnhancedBooking.Submit | src/screens/booking/index.tsx:150-158 | submitting on the last step shows the confirmation |
| BookingScreen.EnhancedBooking.CloseConfirmation | src/screens/booking/index.tsx:101-108 | closing the confirmation returns to step 1 with an empty selection |
| BookingScreen.OrEmpty | src/screens/booking/index.tsx:36-46 | a missing text field defaults to the empty string |
| BookingScreen.OrZero | src/screens/booking/index.tsx:36-46 | a missing number field defaults to 0 |
| BookingScreen.NormalizeServiceDefaults | src/screens/booking/index.tsx:36-46 | a normalised service keeps the document id and each present field, with empty or zero defaults for absent ones |
| BookingScreen.NormalizedDays | src/screens/booking/index.tsx:50-62 | a weekday is available exactly when some availability entry of the document names it |
| BookingScreen.FetchedStylistHasNoSlots | src/screens/booking/index.tsx:50-62 | a stylist read from Firestore never yields slots: no availability gives none, and an available day fails for lack of a start/end pair |
| BookingScreen.NaNIdNeverFound | src/screens/booking/index.tsx:50-62 | a non-numeric document id becomes NaN, and no lookup ever matches it |
| BookingScreen.NumericIdParsed | src/screens/booking/index.tsx:50-62 | a numeric document id becomes its decimal value |
| BookingScreen.NormalizeService | src/screens/booking/index.tsx:36-46 | definition: a service document with "" and 0 for missing fields; see BookingScreen.NormalizeServiceDefaults |
| BookingScreen.NormalizeStylist | src/screens/booking/index.tsx:50-62 | definition: the id through parseInt, the working days and the list of working hours from the availability entries; see BookingScreen.NormalizedDays, BookingScreen.NaNIdNeverFound and BookingScreen.NumericIdParsed |
| ServiceSelection.HandleServiceToggle | src/screens/booking/components/ServiceSelection.tsx:12-18 | the store's selection becomes the toggled selection |
| ServiceSelection.ToggleFlips | src/screens/booking/components/ServiceSelection.tsx:12-18 | toggling a service flips whether its id is selected and leaves every other id as it was |
| ServiceSelection.ToggleKeepsUnique | src/screens/booking/components/ServiceSelection.tsx:12-18 | toggling keeps the selected service ids unique |
| ServiceSelection.WithoutServiceUnique | src/store/bookinStore.ts:215-217 | removing a service keeps the selected ids unique |
| ServiceSelection.ToggleTwiceAbsent | src/screens/booking/components/ServiceSelection.tsx:12-18 | toggling an unselected service twice restores the selection |
| ServiceSelection.ToggleTwicePresent | src/screens/booking/components/ServiceSelection.tsx:12-18 | toggling a selected service twice moves it to the end of the selection |
| ServiceSelection.SumWithoutUnique | src/screens/booking/components/ServiceSelection.tsx:20-21 | with unique ids, removing one service lowers a total by exactly that service's share |
| ServiceSelection.ToggleTotals | src/screens/booking/components/ServiceSelection.tsx:20-21 | toggling a service on adds its duration and price to the totals, and toggling it off subtracts them |
| ServiceSelection.NextGuardMatchesBooking | src/screens/booking/components/ServiceSelection.tsx:104 | the Next button is enabled exactly when the service part of a booking is complete, and selecting a new service enables it |
| ServiceSelection.Toggle | src/screens/booking/components/ServiceSelection.tsx:12-18 | definition: removes the service when one with its id is selected, otherwise appends it; see ServiceSelection.ToggleFlips and ServiceSelection.ToggleKeepsUnique |
| Shop.EffectivePrice | src/store/shopStore.ts:187-192 | an item costs its sale price when one is set and non-zero, and its list price otherwise |
| Shop.FindItem | src/store/shopStore.ts:205-208 | an item is found exactly when the product is in the cart, and the item found is that product's |
| Shop.FindItemUnique | src/store/shopStore.ts:205-208 | in a cart without duplicate products, looking a product up finds its own line |
| Shop.InCartIffQuantity | src/store/shopStore.ts:200-208 | in a valid cart, a product is in the cart exactly when its quantity there is positive |
| Shop.MapQuantity | src/store/shopStore.ts:83-117 | updating a quantity keeps every product in place and changes the quantity only on the target product's line |
| Shop.RemoveItem | src/store/shopStore.ts:119-121 | removing a product leaves no line for it and keeps every other line in order |
| Shop.RemoveItemValid | src/store/shopStore.ts:119-121 | removing a product keeps the cart valid |
| Shop.SubsequenceUnique | src/store/shopStore.ts:119-121 | any sub-list of a valid cart is a valid cart |
| Shop.AddItemSpec | src/store/shopStore.ts:83-101 | adding a product keeps the cart valid, raises its quantity by one, adds a line only when the product was absent, leaves other products alone and raises the item count by one |
| Shop.AddExistingItem | src/store/shopStore.ts:86-92 | adding a product already in the cart increments its line |
| Shop.IncrementKeepsOther | src/store/shopStore.ts:86-92 | incrementing one line leaves other products' quantities alone |
| Shop.AddNewItem | src/store/shopStore.ts:93-98 | adding a product not in the cart appends a line of quantity one |
| Shop.AddNewItemTotal | src/store/shopStore.ts:93-98 | adding a new product raises the cart total by its effective price |
| Shop.SetQuantitySpec | src/store/shopStore.ts:103-117 | a quantity below one removes the product, otherwise it sets the quantity; an absent product leaves the cart as it was; other products are untouched and the cart stays valid |
| Shop.RemoveItemSpec | src/store/shopStore.ts:119-121 | removing a product keeps the cart valid, leaves other products' quantities alone and does nothing when the product is absent |
| Shop.RemoveKeepsOther | src/store/shopStore.ts:119-121 | removing one product keeps another product's quantity |
| Shop.ReplaceQuantitySpec | src/store/shopStore.ts:110-116 | setting a positive quantity sets exactly that product's quantity and keeps the cart valid |
| Shop.CartTotalNonNegative | src/store/shopStore.ts:187-197 | with non-negative quantities the cart total and the item count are non-negative |
| Shop.ZeroSalePriceIgnored | src/store/shopStore.ts:189 | a sale price of zero falls back to the list price |
| Shop.WithFieldSetsOneField | src/store/shopStore.ts:157-162 | updating a checkout field sets that field and leaves all others |
| Shop.FormExtensional | src/store/shopStore.ts:26-37 | two checkout forms with equal fields are equal |
| Shop.ShopStore.constructor | src/store/shopStore.ts:65-81 | the shop starts with an empty cart, closed panels, checkout step 1, an empty form and no order placed |
| Shop.ShopStore.AddToCart | src/store/shopStore.ts:83-101 | the cart becomes the product added to it and the cart panel opens; a valid cart stays valid with one more item |
| Shop.ShopStore.UpdateQuantity | src/store/shopStore.ts:103-117 | the cart becomes the quantity update of the old cart and stays valid |
| Shop.ShopStore.RemoveFromCart | src/store/shopStore.ts:119-121 | the cart loses the product and stays valid |
| Shop.ShopStore.ClearCart | src/store/shopStore.ts:123 | the cart becomes empty |
| Shop.ShopStore.ToggleCart | src/store/shopStore.ts:125-128 | the cart panel flips and the checkout closes |
| Shop.ShopStore.CloseCart | src/store/shopStore.ts:130 | the cart panel closes |
| Shop.ShopStore.OpenCheckout | src/store/shopStore.ts:132-136 | the checkout opens on step 1 and the cart panel closes |
| Shop.ShopStore.CloseCheckout | src/store/shopStore.ts:138-153 | the checkout closes, returns to step 1 and every form field is cleared |
| Shop.ShopStore.SetCheckoutStep | src/store/shopStore.ts:155 | the checkout step becomes the given one |
| Shop.ShopStore.UpdateCheckoutForm | src/store/shopStore.ts:157-162 | the named field takes the value and every other field is kept |
| Shop.ShopStore.CompleteOrder | src/store/shopStore.ts:164-175 | the order is placed and the checkout moves to the confirmation step 4 |
| Shop.ShopStore.ResetOrderPlaced | src/store/shopStore.ts:177 | the order-placed flag is cleared |
| Shop.QuantityInCart | src/store/shopStore.ts:205-208 | definition: the quantity of the first entry for the product, or 0; see Shop.InCartIffQuantity |
| Shop.AddItem | src/store/shopStore.ts:83-101 | definition: one more unit of every entry for a product already in the cart, or a new entry of one unit at the end; see Shop.AddItemSpec |
| Shop.SetQuantity | src/store/shopStore.ts:103-117 | definition: a quantity below one removes the product, otherwise every entry for it gets that quantity; see Shop.SetQuantitySpec |
| Shop.CartTotal | src/store/shopStore.ts:187-192 | definition: the sum of effective price times quantity; see Shop.CartTotalNonNegative and Shop.AddNewItemTotal |
| Shop.CartCount | src/store/shopStore.ts:195-197 | definition: the sum of the quantities; see Shop.AddItemSpec |
| ProductFilter.FilterKeepsExactlyMatches | src/screens/Shop/hooks/useProductFilter.ts:10-17 | a product is shown exactly when it is in the list, its category matches or is "all", and its name or brand contains the search term ignoring case |
| ProductFilter.FilterKeepsOrder | src/screens/Shop/hooks/useProductFilter.ts:10-17 | filtering keeps the products in their original order |
| ProductFilter.EmptySearchKeepsAll | src/screens/Shop/hooks/useProductFilter.ts:10-17 | category "all" with an empty search shows every product |
| ProductFilter.SearchIgnoresCase | src/screens/Shop/hooks/useProductFilter.ts:13-14 | lower-casing the search term does not change the result |
| ProductFilter.Insert | src/screens/Shop/hooks/useProductFilter.ts:19-32 | inserting into a list adds exactly that element |
| ProductFilter.SortByKey | src/screens/Shop/hooks/useProductFilter.ts:19-32 | sorting is a permutation of its input |
| ProductFilter.InsertAbove | src/screens/Shop/hooks/useProductFilter.ts:19-32 | inserting keeps a lower bound that holds for all elements |
| ProductFilter.InsertSorted | src/screens/Shop/hooks/useProductFilter.ts:19-32 | inserting into a sorted list keeps it sorted |
| ProductFilter.SortByKeySorted | src/screens/Shop/hooks/useProductFilter.ts:19-32 | the sorted list is in non-decreasing key order |
| ProductFilter.InsertStable | src/screens/Shop/hooks/useProductFilter.ts:19-32 | inserting places the element ahead of equal keys and keeps their relative order |
| ProductFilter.SortByKeyStable | src/screens/Shop/hooks/useProductFilter.ts:19-32 | sorting keeps the original order among products with equal keys |
| ProductFilter.SortProducts | src/screens/Shop/hooks/useProductFilter.ts:19-32 | every sort mode is a permutation of the products |
| ProductFilter.SortModes | src/screens/Shop/hooks/useProductFilter.ts:19-32 | each sort mode orders by its key (newest or featured first, price ascending or descending) as a stable permutation |
| ProductFilter.VisibleIsSortedFilter | src/screens/Shop/hooks/useProductFilter.ts:10-32 | the visible list holds exactly the matching products, whatever the sort |
| ProductFilter.FilterProducts | src/screens/Shop/hooks/useProductFilter.ts:10-17 | definition: the products of the category (any for "all") whose name or brand contains the search term, ignoring ASCII case; see ProductFilter.FilterKeepsExactlyMatches |
| ProductFilter.ModeOf | src/screens/Shop/hooks/useProductFilter.ts:21-31 | definition: "newest", "price-low" and "price-high" pick their mode, anything else sorts as featured |
| ProductFilter.KeyFn | src/screens/Shop/hooks/useProductFilter.ts:21-31 | definition: the key each mode sorts by, smallest first: the bestseller or new flag first, the effective price up, or the effective price down; see ProductFilter.SortModes |
| ProductFilter.VisibleProducts | src/screens/Shop/hooks/useProductFilter.ts:10-32 | definition: the filtered products sorted under the chosen mode; see ProductFilter.VisibleIsSortedFilter |
| PaymentFormat.TrimSpaces | src/screens/Shop/components/Checkout/PaymentStep.tsx:41 | a trimmed string neither begins nor ends with a space |
| PaymentFormat.SpacedIsGroupedPlus | src/screens/Shop/components/Checkout/PaymentStep.tsx:41 | putting a space after every four digits gives the grouped digits plus one trailing space when the length is a positive multiple of four |
| PaymentFormat.GroupFoursEnds | src/screens/Shop/components/Checkout/PaymentStep.tsx:41 | grouped digits begin and end with a digit |
| PaymentFormat.SpacedAndTrimmedIsGrouped | src/screens/Shop/components/Checkout/PaymentStep.tsx:41 | spacing and trimming digits is the same as grouping them in fours |
| PaymentFormat.GroupFoursShape | src/screens/Shop/components/Checkout/PaymentStep.tsx:41 | grouped digits have a space exactly at every fifth position and digits elsewhere |
| PaymentFormat.GroupFoursDigits | src/screens/Shop/components/Checkout/PaymentStep.tsx:41 | removing the spaces from grouped digits gives back the digits |
| PaymentFormat.FormatCardSpec | src/screens/Shop/components/Checkout/PaymentStep.tsx:40-42 | the card field shows the first 16 digits of the input in groups of four separated by single spaces |
| PaymentFormat.FormatCardIdempotent | src/screens/Shop/components/Checkout/PaymentStep.tsx:40-42 | formatting an already formatted card number changes nothing |
| PaymentFormat.DigitsOfSlashed | src/screens/Shop/components/Checkout/PaymentStep.tsx:61-62 | inserting the slash loses no digit |
| PaymentFormat.FormatExpirySpec | src/screens/Shop/components/Checkout/PaymentStep.tsx:59-64 | the expiry field holds at most four digits of the input, with a slash after the first two once there are more than two |
| PaymentFormat.FormatExpiryIdempotent | src/screens/Shop/components/Checkout/PaymentStep.tsx:59-64 | formatting an already formatted expiry changes nothing |
| PaymentFormat.FormatCvc | src/screens/Shop/components/Checkout/PaymentStep.tsx:78-79 | the CVC field holds at most four digits |
| PaymentFormat.FormatCvcSpec | src/screens/Shop/components/Checkout/PaymentStep.tsx:78-79 | the CVC is the first digits of the input, four of them when there are enough, and formatting twice changes nothing |
| PaymentFormat.FormatCard | src/screens/Shop/components/Checkout/PaymentStep.tsx:40-42 | definition: the first 16 digits, a space after every four, trailing space trimmed; see PaymentFormat.FormatCardSpec and PaymentFormat.FormatCardIdempotent |
| PaymentFormat.FormatExpiry | src/screens/Shop/components/Checkout/PaymentStep.tsx:59-64 | definition: the first four digits with a slash after the second when there are more than two; see PaymentFormat.FormatExpirySpec and PaymentFormat.FormatExpiryIdempotent |
| AdminStore.MergeServiceLaws | src/store/adminStore.ts:274-286 | a patch replaces exactly its present fields, an empty patch changes nothing and applying a patch twice is the same as once |
| AdminStore.MergeStylistLaws | src/store/adminStore.ts:322-334 | a stylist patch replaces exactly its present fields, an empty patch changes nothing and applying a patch twice is the same as once |
| AdminStore.SetUserRole | src/store/adminStore.ts:137-149 | a role update keeps the length of the user list |
| AdminStore.SetUserStatus | src/store/adminStore.ts:151-191 | a status update keeps the length of the user list |
| AdminStore.UserUpdatesTouchOnlyTarget | src/store/adminStore.ts:137-191 | role and status updates change only the named field of the user with that id |
| AdminStore.DeleteIsSoft | src/store/adminStore.ts:179-191 | deleting a user keeps it in the list under its id with status "deleted", and reactivating a deleted user is the same as reactivating it directly |
| AdminStore.StatusUpdatesCompose | src/store/adminStore.ts:151-191 | the latest status update to a user wins, and updates to different users commute |
| AdminStore.SetAppointmentStatus | src/store/adminStore.ts:238-250 | an appointment status update keeps the length of the list |
| AdminStore.AppointmentStatusTouchesOnlyTarget | src/store/adminStore.ts:238-250 | a status update changes only the status of the appointment with that id, and repeating it changes nothing |
| AdminStore.PatchServices | src/store/adminStore.ts:274-286 | patching services keeps the length of the list |
| AdminStore.PatchStylists | src/store/adminStore.ts:322-334 | patching stylists keeps the length of the list |
| AdminStore.PatchesTouchOnlyTarget | src/store/adminStore.ts:274-334 | a patch leaves every entry with another id unchanged and turns each entry with that id into its merge with the patch; ids stay unless the patch sets one, and an empty patch changes nothing |
| AdminStore.DropRemovesExactlyTarget | src/store/adminStore.ts:288-298 | deleting a service removes exactly the entries with that id, keeps the rest in order and is idempotent |
| AdminStore.DropStylistRemovesExactlyTarget | src/store/adminStore.ts:336-346 | deleting a stylist removes exactly the entries with that id and keeps the rest in order |
| AdminStore.AdminStore.constructor | src/store/adminStore.ts:70-90 | the admin store starts empty, with more pages expected, nothing loading and no filters |
| AdminStore.AdminStore.StartFetchUsers | src/store/adminStore.ts:93-110 | a fresh fetch marks the users as loading and asks for the first page of 10 users with the given filters |
| AdminStore.AdminStore.FinishFetchUsers | src/store/adminStore.ts:93-110 | a page replaces the users, records its cursor and whether more remain, and keeps the filters; a failure only stops loading |
| AdminStore.AdminStore.StartLoadMoreUsers | src/store/adminStore.ts:112-135 | nothing is asked while loading or when no page remains; otherwise the next page after the cursor is asked with the stored filters |
| AdminStore.AdminStore.FinishLoadMoreUsers | src/store/adminStore.ts:112-135 | a page is appended to the users and advances the cursor; a failure only stops loading |
| AdminStore.AdminStore.StartFetchAppointments | src/store/adminStore.ts:194-211 | a fresh fetch marks the appointments as loading and asks for the first page of 20 appointments with the given filters |
| AdminStore.AdminStore.FinishFetchAppointments | src/store/adminStore.ts:194-211 | a page replaces the appointments and records its cursor and whether more remain; a failure only stops loading |
| AdminStore.AdminStore.StartLoadMoreAppointments | src/store/adminStore.ts:213-236 | nothing is asked while loading or when no page remains; otherwise the next page is asked |
| AdminStore.AdminStore.FinishLoadMoreAppointments | src/store/adminStore.ts:213-236 | a page is appended to the appointments; a failure only stops loading |
| AdminStore.AdminStore.UpdateUserRole | src/store/adminStore.ts:137-149 | a successful write updates the user's role in memory; a failed one changes nothing |
| AdminStore.AdminStore.SetStatus | src/store/adminStore.ts:151-191 | a successful write updates the user's status in memory; a failed one changes nothing |
| AdminStore.AdminStore.SuspendUser | src/store/adminStore.ts:151-163 | a successful write marks the user suspended |
| AdminStore.AdminStore.ReactivateUser | src/store/adminStore.ts:165-177 | a successful write marks the user active |
| AdminStore.AdminStore.DeleteUser | src/store/adminStore.ts:179-191 | a successful write marks the user deleted and keeps the list length |
| AdminStore.AdminStore.UpdateAppointmentStatus | src/store/adminStore.ts:238-250 | a successful write updates the appointment's status in memory; a failed one changes nothing |
| AdminStore.AdminStore.FetchServices | src/store/adminStore.ts:253-262 | a successful read replaces the services, a failed one keeps them, and loading stops either way |
| AdminStore.AdminStore.AddService | src/store/adminStore.ts:264-272 | a successful write appends the service under its new id; a failed one changes nothing |
| AdminStore.AdminStore.UpdateService | src/store/adminStore.ts:274-286 | a successful write merges the patch into the service with that id |
| AdminStore.AdminStore.DeleteService | src/store/adminStore.ts:288-298 | a successful write removes the service with that id |
| AdminStore.AdminStore.FetchStylists | src/store/adminStore.ts:301-310 | a successful read replaces the stylists, a failed one keeps them, and loading stops either way |
| AdminStore.AdminStore.AddStylist | src/store/adminStore.ts:312-320 | a successful write appends the stylist under its new id; a failed one changes nothing |
| AdminStore.AdminStore.UpdateStylist | src/store/adminStore.ts:322-334 | a successful write merges the patch into the stylist with that id |
| AdminStore.AdminStore.DeleteStylist | src/store/adminStore.ts:336-346 | a successful write removes the stylist with that id |
| AdminStore.AdminStore.FetchStats | src/store/adminStore.ts:349-358 | a successful read stores the statistics, a failed one keeps the old ones, and loading stops either way |
| AdminStore.MergeService | src/store/adminStore.ts:278-280 | definition: `{ ...service, ...data }`, each field from the patch when it carries one; see AdminStore.MergeServiceLaws |
| AdminStore.MergeStylist | src/store/adminStore.ts:326-328 | definition: `{ ...stylist, ...data }`; see AdminStore.MergeStylistLaws |
| AdminStore.DropService | src/store/adminStore.ts:291-293 | definition: the services whose id differs, in order; see AdminStore.DropRemovesExactlyTarget |
| AdminStore.DropStylist | src/store/adminStore.ts:339-341 | definition: the stylists whose id differs, in order; see AdminStore.DropStylistRemovesExactlyTarget |
| AdminReports.MonthOf | src/services/adminService.ts:264-280 | the local month of `new Date(date)` for a "YYYY-MM-DD" date is a zero-based month below 12 and a year of at least -1 |
| AdminReports.MonthOfZones | src/services/adminService.ts:264-280 | the offset never decides whether a date has a month; at an offset of zero or more, and on any day but the 1st, the month is the one written in the date |
| AdminReports.FirstOfMonthWestOfUtc | src/services/adminService.ts:264-280 | west of UTC the 1st of a month counts in the month before it, and the 1st of January in December of the year before |
| AdminReports.NewYearWestOfUtc | src/services/adminService.ts:264-280 | "2024-01-01" counts in January 2024 at UTC and in December 2023 five hours west of it |
| AdminReports.GetAdminStats | src/services/adminService.ts:247-290 | the statistics are the user count, the active users, the appointment count, today's appointments and the completed revenue in total and for the current month, each appointment's month read in local time at the given UTC offset |
| AdminReports.RevenueIsCompletedPrices | src/services/adminService.ts:264-280 | total revenue is the sum of the prices of the completed appointments |
| AdminReports.MonthlyAtMostTotal | src/services/adminService.ts:264-280 | with non-negative prices, monthly revenue lies between zero and total revenue |
| AdminReports.StatsBounds | src/services/adminService.ts:247-290 | active users never exceed all users, today's appointments never exceed all appointments, and monthly revenue lies between zero and the total |
| AdminReports.CompletingAddsPrice | src/services/adminService.ts:264-280 | marking one uncompleted appointment completed raises total revenue by exactly its price |
| AdminReports.RowsFor | src/services/adminService.ts:320-324 | the report has one row per listed date |
| AdminReports.DatedSplit | src/services/adminService.ts:306-318 | a date occurs in a list of appointments exactly when it occurs in the list without its last element or is that element's date |
| AdminReports.DistinctDatesSpec | src/services/adminService.ts:306-318 | the report's dates are distinct and are exactly the dates that occur among the appointments |
| AdminReports.DistinctDatesPrefix | src/services/adminService.ts:306-318 | the dates seen so far are a prefix of all report dates, in first-seen order |
| AdminReports.UnlistedTallyZero | src/services/adminService.ts:306-318 | a date with no appointment has nothing tallied |
| AdminReports.RevenueReport | src/services/adminService.ts:292-325 | the loop builds exactly the report: one row per distinct date in first-seen order with that date's revenue and appointment count |
| AdminReports.SumOverDatesStep | src/services/adminService.ts:306-318 | adding one appointment adds its weight to the tally of its date only |
| AdminReports.SumOverDistinctDates | src/services/adminService.ts:306-318 | summing the per-date tallies over the distinct dates counts every appointment once |
| AdminReports.RowSums | src/services/adminService.ts:320-324 | the rows' revenues and counts add up to the per-date tallies |
| AdminReports.SumOfOnes | src/services/adminService.ts:306-318 | counting one per appointment gives the number of appointments |
| AdminReports.ReportTotals | src/services/adminService.ts:292-325 | the report's rows follow the distinct dates, their appointment counts add up to all appointments and their revenues to all prices |
| AdminReports.ActiveUsers | src/services/adminService.ts:251 | definition: the number of users whose status is "active"; see AdminReports.StatsBounds |
| AdminReports.TodayAppointments | src/services/adminService.ts:258-261 | definition: the number of appointments dated today; see AdminReports.StatsBounds |
| AdminReports.TotalRevenue | src/services/adminService.ts:263-279 | definition: the sum of the completed appointments' prices; see AdminReports.RevenueIsCompletedPrices and AdminReports.CompletingAddsPrice |
| AdminReports.MonthlyRevenue | src/services/adminService.ts:263-279 | definition: the same sum restricted to appointments whose local month is the given month and year; see AdminReports.MonthlyAtMostTotal |
| AdminReports.Report | src/services/adminService.ts:292-325 | definition: one row per distinct date in first-seen order with that date's revenue and appointment count; see AdminReports.DistinctDatesSpec and AdminReports.ReportTotals |
| AdminScreens.OrderTransitionsMoveForward | src/screens/admin/Orders.tsx:161-184 | an order's action moves it exactly one stage forward; delivered and unknown statuses have no action |
| AdminScreens.ReachesDelivered | src/screens/admin/Orders.tsx:161-184 | repeating the action reaches delivered within three steps and then stays there |
| AdminScreens.FilteredOrdersSpec | src/screens/admin/Orders.tsx:68-71 | filter "all" shows every order; otherwise an order is shown exactly when its status equals the filter, in the original order |
| AdminScreens.SetOrderStatus | src/screens/admin/Orders.tsx:54-66 | an order status update keeps the length of the list |
| AdminScreens.SetOrderStatusTouchesOnlyTarget | src/screens/admin/Orders.tsx:54-66 | a status update changes only the status of the order with that id, and repeating it changes nothing |
| AdminScreens.AdminOrdersScreen.constructor | src/screens/admin/Orders.tsx:31-52 | the screen starts loading, with no orders and filter "all" |
| AdminScreens.AdminOrdersScreen.LoadOrders | src/screens/admin/Orders.tsx:31-52 | a successful read replaces the orders, a failed one keeps them, and loading stops either way |
| AdminScreens.AdminOrdersScreen.SetFilter | src/screens/admin/Orders.tsx:68-71 | the filter becomes the chosen one |
| AdminScreens.AdminOrdersScreen.UpdateOrderStatus | src/screens/admin/Orders.tsx:54-66 | a successful write updates the order's status in memory; a failed one changes nothing |
| AdminScreens.AdminOrdersScreen.AdvanceShownOrder | src/screens/admin/Orders.tsx:161-184 | the button of a shown order moves it to its next stage after a successful write, and a final stage has no button |
| AdminScreens.AppointmentActionsOnlyFromConfirmed | src/screens/admin/Appointments.tsx:146-163 | only a confirmed appointment offers actions, namely complete and cancel, and both are final |
| AdminScreens.FilteredAppointmentsMembers | src/screens/admin/Appointments.tsx:64-70 | an appointment is shown exactly when it is in the list and the filter keeps it |
| AdminScreens.FilteredAppointmentsSpec | src/screens/admin/Appointments.tsx:64-70 | "all" and an unknown filter show every appointment, "completed" and "cancelled" exactly the appointments with that status, "upcoming" exactly the confirmed ones whose date is in the future, always in the original order |
| AdminScreens.SetScreenAppointmentStatus | src/screens/admin/Appointments.tsx:50-62 | an appointment status update keeps the length of the list |
| AdminScreens.SetScreenAppointmentStatusTouchesOnlyTarget | src/screens/admin/Appointments.tsx:50-62 | a status update changes only the status of the appointment with that id, and repeating it changes nothing |
| AdminScreens.AdminAppointmentsScreen.constructor | src/screens/admin/Appointments.tsx:27-48 | the screen starts loading, with no appointments and filter "all" |
| AdminScreens.AdminAppointmentsScreen.LoadAppointments | src/screens/admin/Appointments.tsx:27-48 | a successful read replaces the appointments, a failed one keeps them, and loading stops either way |
| AdminScreens.AdminAppointmentsScreen.SetFilter | src/screens/admin/Appointments.tsx:64-70 | the filter becomes the chosen one |
| AdminScreens.AdminAppointmentsScreen.UpdateAppointmentStatus | src/screens/admin/Appointments.tsx:50-62 | a successful write updates the appointment's status in memory; a failed one changes nothing |
| AdminScreens.LowerOrEmpty | src/screens/admin/Users.tsx:42-43 | a missing name or email searches as the empty string, a present one lower-cased |
| AdminScreens.FilteredUsersSpec | src/screens/admin/Users.tsx:40-46 | a user is shown exactly when the lower-cased name or email contains the lower-cased term; an empty term shows everyone; a user with neither name nor email never matches a non-empty term |
| AdminScreens.ToggleRoleInvolution | src/screens/admin/Users.tsx:49 | toggling a role gives admin or user, always different from the old role, and toggling twice restores admin or user |
| AdminScreens.SetScreenUserRole | src/screens/admin/Users.tsx:48-61 | a role update keeps the length of the user list |
| AdminScreens.AdminUsersScreen.constructor | src/screens/admin/Users.tsx:21-38 | the screen starts loading, with no users and an empty search |
| AdminScreens.AdminUsersScreen.LoadUsers | src/screens/admin/Users.tsx:21-38 | a successful read replaces the users, a failed one keeps them, and loading stops either way |
| AdminScreens.AdminUsersScreen.SetSearchTerm | src/screens/admin/Users.tsx:40-46 | the search term becomes the typed one |
| AdminScreens.AdminUsersScreen.ToggleUserRole | src/screens/admin/Users.tsx:48-61 | a successful write gives the user the toggled role and leaves every other user unchanged |
| AdminScreens.NextOrderStatus | src/screens/admin/Orders.tsx:161-184 | definition: pending, processing and shipped each offer the next status, other statuses none; see AdminScreens.OrderTransitionsMoveForward and AdminScreens.ReachesDelivered |
| AdminScreens.FilteredOrders | src/screens/admin/Orders.tsx:68-71 | definition: every order for "all", otherwise those with that status; see AdminScreens.FilteredOrdersSpec |
| AdminScreens.AppointmentActions | src/screens/admin/Appointments.tsx:146-163 | definition: completed and cancelled for a confirmed appointment, nothing otherwise; see AdminScreens.AppointmentActionsOnlyFromConfirmed |
| AdminScreens.FilteredAppointments | src/screens/admin/Appointments.tsx:64-70 | definition: the appointments the filter keeps, in order; see AdminScreens.FilteredAppointmentsMembers and AdminScreens.FilteredAppointmentsSpec |
| AdminScreens.FilteredUsers | src/screens/admin/Users.tsx:40-46 | definition: the users whose lower-cased name or e-mail contains the lower-cased term; see AdminScreens.FilteredUsersSpec |
| AdminScreens.ToggleRole | src/screens/admin/Users.tsx:49 | definition: "admin" becomes "user" and anything else "admin"; see AdminScreens.ToggleRoleInvolution |
| Text.ParseInt | src/screens/booking/index.tsx:53 | parseInt yields NaN exactly when no hexadecimal digit follows a sign and `0x`/`0X`, or, without that prefix, no decimal digit follows the sign; the value is never positive after `-` and never negative otherwise |
| Text.ParseIntNumeral | src/screens/booking/index.tsx:53 | parseInt of decimal digits followed by a non-digit is the value of the digits, unless the text starts `0x`/`0X` |
| Text.UnsignedValueHex | src/screens/booking/index.tsx:53 | after `0x`/`0X`, the magnitude read is the value of the hexadecimal digits up to the first other character, and NaN when there is none |
| Text.ParseIntAfterSign | src/screens/booking/index.tsx:53 | after a sign, parseInt reads the magnitude of the rest, negated after `-`, and is NaN when the rest has none |
| Text.ParseIntHex | src/screens/booking/index.tsx:53 | parseInt of an optionally signed `0x` or `0X` numeral followed by a non-hex-digit is its hexadecimal value, negated after `-`; with no hex digit it is NaN |
| Text.ParseIntHexExample | src/screens/booking/index.tsx:53 | parseInt("0x1f") is 31 |
| Text.ParseIntHexNaNExample | src/screens/booking/index.tsx:53 | parseInt("0xg") is NaN |
| Text.ParseIntDecimalExample | src/screens/booking/index.tsx:53 | parseInt("12px") is 12 |
| Text.ToLower | src/screens/Shop/hooks/useProductFilter.ts:13-14 | lower-casing keeps the length and lower-cases each character |

## Left out

- **Clock and calendar.**
  - The local time zone is an input: its offset from UTC in minutes, east
    positive, for the slot generator and for the month of an appointment.
    A change of offset during the day (daylight saving) is not modelled:
    one offset holds for the whole computation.
  - The weekday of a date is an input to the slot generator. The source
    computes it with `new Date(date).getDay()`, which is the local weekday
    of midnight UTC, so west of UTC it is the weekday of the day before.
  - "Today" and the current month and year are inputs to the statistics.
    "Today" is the UTC date (`toISOString`), the month and year are local.
  - `Date`'s lenient parsing of other time shapes is not modelled: only
    strict "HH:MM" is.
  - Locale-dependent `toTimeString` formatting is not modelled.
  - AdminReports.MonthOf: reads only the "YYYY-MM-DD" shape, without
    checking that the day exists in that month. `Date` also accepts other
    shapes, such as "2024-3-5", which the model counts in no month; a
    "YYYY-MM-DD" date is midnight UTC, which is what the offset shifts.
- **Firestore and the network.** Every read and write becomes a parameter
  of the method: the page or list returned, the new document id, or a
  success flag.
  - The queries themselves are not modelled.
  - Neither are Firestore's ordering and filtering of pages and the
    document snapshots behind a cursor.
  - Neither are the `startDate`/`endDate` bounds of `getRevenueReport`.
  - Neither is the seeding script.
- **Concurrency.**
  - An admin fetch racing with a load-more is modelled only by splitting
    each into a start step and a finish step. Their interleavings are not
    explored.
  - React's asynchronous state updates are not modelled.
  - The admin screens update their local lists from the list as rendered.
    This is a stale closure in the source, and the model reads the current
    list instead.
- **Floating point.** Prices are integers. The admin stylist record
  (`AdminTypes.AdminStylist`) keeps rating and experience as plain fields
  without arithmetic.
- **BookingTypes.Stylist** has no rating or experience, so
  `BookingScreen.NormalizeStylist` drops the `data.rating || 0` and
  `data.experience || 0` defaults (`src/screens/booking/index.tsx:57-58`);
  nothing in the booking logic reads them.
- **Text.**
  - Lower-casing is ASCII only.
  - Text.ParseInt: does not skip leading whitespace, and the value is an
    unbounded integer, where JavaScript loses precision above 2^53.
  - Text.ParseIntNumeral: promises the decimal reading only for text that
    does not start with `0x`/`0X`. `parseInt` reads such text as
    hexadecimal, which `Text.ParseIntHex` states.
  - JavaScript strings are UTF-16 code units; the model uses Dafny `char`.
- **`getRevenueReport` row order.** The rows come out in the order their
  dates are first seen. The source builds them with `Object.entries`, which
  would list integer-like keys first; report dates never look like integers.
- **Admin patches.** A `Partial<>` patch is modelled as a record of optional
  fields. An explicit `undefined` value inside a patch is not distinguished
  from an absent field.
- **ProductFilter.SortModes: newest-first and featured-first.** These modes
  are modelled as a stable partition: flagged products first, each group in
  its original order. The source's comparator is not a consistent order
  when both products carry the flag. Such pairs keep their original order
  in the model, which the JavaScript sort may not.
- **Not part of this model.**
  - Rendering, styling, routing, e-mail templates and authentication
    (`authStore`, the admin route guard).
  - The booking store's `fetchAppointments`.
  - The newsletter and search-box debounce.
  - The static product catalogue data.
- **Shop.ShopStore.CompleteOrder:** marks the order placed and moves to the
  confirmation step. Clearing the cart there is left to the UI, as in the
  source.
- **Order lines in the admin Orders screen** keep a product id and the
  quantity. The product record the screen renders for a line is not
  modelled.
