# Healthcare app: screen logic in Dafny

This project models the event-handling logic of a React healthcare app. Patients use it to:
- book and join video consultations;
- scan and browse medical reports;
- order medicines from a small pharmacy;
- sign in with a password or a fingerprint.

Doctors use it to manage appointments, patients and notes. Every screen is a React component that keeps some state with `useState` and changes it in button handlers. The model follows the components one by one:

- **One module per component.** The state a component keeps becomes a `class`. The class fields are those `useState` variables. Each handler becomes a method that `modifies this`.
- **Pure decision functions.** Whatever a handler computes becomes a pure function beside the class: a filtered list, a validation toast, the next step of a wizard, a clamped quantity, a formatted timer. The method's `ensures` ties the new state or its result to that function. Lemmas then prove what the screen promises about the function.
- **Dashboards and the page router.** `Index`, `PatientDashboard` and `DoctorDashboard` also get a value-level `Step` function over all their state, with a `Run` over event sequences. The invariants of the navigation are proved over these.
- **Shared modules:**
  - `Common`: an `Option` type, subsequence and `Filter` with its lemmas.
  - `Text`: ASCII lower-casing, `includes`, and first-match rule tables for the `if … else if` keyword chains.
  - `Decimal`: numerals, parsing them back, and `padStart`.
  - `Recording`: the recorder state machine that the three voice components share.

**How the outside world appears in the model:**
- Money is integer cents: 12.99 is `1299`.
- Parameters stand in for:
  - the clock (`Date.now()`, `new Date()`);
  - `Math.random()` (the chosen transcription);
  - `URL.createObjectURL`;
  - the platform detection;
  - the outcome of the native biometric prompt.
- `setTimeout` and `setInterval` callbacks are separate methods, to be called when the timer fires.
- Toasts, `alert`, `console.log` and the callbacks a component receives become outcome values. The model returns them instead of performing them.

A few behaviours of the code as written, which the model keeps:
- The voice components' timers test `isRecording` as it was when the timer was scheduled, which is false (src/components/voice/VoiceAssistant.tsx:27-28), so no transcription is ever produced (`Recording.NoTranscriptionEver`).
- `useBiometricAuth` runs its availability check right after storing the plugin (src/hooks/useBiometricAuth.ts:31), but the check reads the plugin as it was before, still empty, and returns at once (src/hooks/useBiometricAuth.ts:41). So `isAvailable` stays false. The biometric login therefore always ends in the fallback once the fields are filled (`BiometricAuth.UndetectedAvailabilityAlwaysFallsBack`).
- The cart's minus button at quantity 1 keeps the line at 1, because the map leaves a line whose new quantity is not positive unchanged (src/components/pharmacy/Cart.tsx:33), so the filter after it removes nothing (`Cart.QuantityChangeOnPositiveCart`).
- JavaScript truthiness is modelled where it decides a branch. An empty id, url or message counts as missing.

## Model

| member | source | states |
|---|---|---|
| Common.Filter | src/components/appointments/AppointmentList.tsx:58-59 | `filter`: exactly the elements passing the test, in order, each as many times as in the input |
| Index.Step | src/pages/Index.tsx:17-65 | only choosing a role changes the role and only choosing a language changes the language, besides the two resets, which restore home, no role and "en"; without a role, language selection and login stay on the same page |
| Index.Wired | src/pages/Index.tsx:67-91 | login is offered only on the two sign-in pages, logout only on the two dashboards, a role only on the role page, a language only on the language page |
| Index.StepKeepsConsistent | src/pages/Index.tsx:17-65 | every wired handler keeps the page consistent: the auth and dashboard pages are only shown with a chosen role, and they match that role |
| Index.RunKeepsConsistent | src/pages/Index.tsx:17-91 | any sequence of wired handler calls from a consistent page keeps it consistent |
| Index.LanguageSelectionAlwaysAdvances | src/pages/Index.tsx:25-37 | on the language page, reached from home, a role is set, and choosing any language moves on to that role's sign-in page |
| Index.LoginReachesRoleDashboard | src/pages/Index.tsx:39-45 | logging in from either sign-in page, reached from home, opens the dashboard of the chosen role |
| Index.RoleLanguageLoginFlow | src/pages/Index.tsx:25-45 | role, then language, then login, from any page, ends on that role's dashboard with that role and language |
| Index.LanguageNeverSteers | src/pages/Index.tsx:30-37 | two runs that differ only in the languages chosen visit the same pages with the same role |
| Index.Index.constructor | src/pages/Index.tsx:13-15 | starts on home with no role and language "en" |
| Index.Index.Rendered | src/pages/Index.tsx:67-91 | each of the seven states draws its own page, and each page is drawn in exactly one state |
| Index.Index.HandleHomeLogin | src/pages/Index.tsx:17-19 | goes to role selection and keeps role and language |
| Index.Index.HandleHomeSignup | src/pages/Index.tsx:21-23 | goes to role selection and keeps role and language |
| Index.Index.HandleRoleSelect | src/pages/Index.tsx:25-28 | records the role and goes to language selection |
| Index.Index.HandleLanguageSelect | src/pages/Index.tsx:30-37 | records the language; goes to the role's sign-in page, or stays when no role is set |
| Index.Index.HandleLogin | src/pages/Index.tsx:39-45 | goes to the role's dashboard, or stays when no role is set |
| Index.Index.HandleBackToHome | src/pages/Index.tsx:47-51 | resets to the initial state |
| Index.Index.HandleBackToRoleSelection | src/pages/Index.tsx:53-55 | goes to role selection and keeps role and language |
| Index.Index.HandleBackToLanguageSelection | src/pages/Index.tsx:57-59 | goes to language selection and keeps role and language |
| Index.Index.HandleLogout | src/pages/Index.tsx:61-65 | resets to the initial state: home, no role, "en" |
| DoctorDashboard.ToProfile | src/components/dashboard/DoctorDashboard.tsx:451-455 | the profile screen is then drawn, and the selected appointment is kept |
| DoctorDashboard.GoTo | src/components/dashboard/DoctorDashboard.tsx:427-449 | no voice branch changes the selected appointment or opens pre-call, in-call or end-call |
| DoctorDashboard.VoiceNavigation | src/components/dashboard/DoctorDashboard.tsx:427-449 | a command without a keyword changes nothing; no command changes the selected appointment or opens a call screen |
| DoctorDashboard.VoiceTargetIsFirstMatch | src/components/dashboard/DoctorDashboard.tsx:427-449 | the voice command's target is the first keyword rule, in the chain's order, that the lower-cased command contains |
| DoctorDashboard.GoToAppointmentsOpensAppointments | src/components/dashboard/DoctorDashboard.tsx:430-432 | "go to appointments" opens the appointments view and tab |
| DoctorDashboard.Step | src/components/dashboard/DoctorDashboard.tsx:427-515 | the tab changes only by voice, the bottom bar or going back to the dashboard; the selected appointment only by Join Call or Add Notes |
| DoctorDashboard.Render | src/components/dashboard/DoctorDashboard.tsx:520-690 | the profile wrapper is drawn exactly when the view is the dashboard on the profile tab, and the home layout exactly when the view is the dashboard on any other tab |
| DoctorDashboard.Wired | src/components/dashboard/DoctorDashboard.tsx:520-690 | hanging up is wired exactly on in-call, joining exactly on pre-call, notes after a call exactly on end-call, and voice exactly on the dashboard view |
| DoctorDashboard.CallChainStep | src/components/dashboard/DoctorDashboard.tsx:497-515 | in-call is entered only from pre-call by Join Call and left only by hanging up into end-call; end-call is entered only from in-call and leads only to notes or the dashboard |
| DoctorDashboard.Trace | src/components/dashboard/DoctorDashboard.tsx:497-515 | the states visited by a run: one more than the events, starting at the initial state |
| DoctorDashboard.CallChainAlongRun | src/components/dashboard/DoctorDashboard.tsx:497-515 | along any wired run, every end-call state is preceded by an in-call one, and every in-call state by a pre-call or in-call one |
| DoctorDashboard.AppointmentIdChanges | src/components/dashboard/DoctorDashboard.tsx:497-505 | only Join Call and Add Notes change the selected appointment, and each stores its own id and opens pre-call or notes |
| DoctorDashboard.ErrorBoundary.constructor | src/components/dashboard/DoctorDashboard.tsx:374-377 | starts with no error |
| DoctorDashboard.ErrorBoundary.GetDerivedStateFromError | src/components/dashboard/DoctorDashboard.tsx:379-381 | sets the error flag and stores the error |
| DoctorDashboard.ErrorBoundary.ComponentDidCatch | src/components/dashboard/DoctorDashboard.tsx:383-389 | stores error and component stack, leaves the flag |
| DoctorDashboard.ErrorBoundary.TryAgain | src/components/dashboard/DoctorDashboard.tsx:408 | clears flag, error and info |
| DoctorDashboard.DoctorDashboard.constructor | src/components/dashboard/DoctorDashboard.tsx:423-425 | dashboard view, home tab, no appointment |
| DoctorDashboard.DoctorDashboard.HandleVoiceNavigation | src/components/dashboard/DoctorDashboard.tsx:427-449 | applies the voice step; the appointment is kept |
| DoctorDashboard.DoctorDashboard.SetActiveViewToProfile | src/components/dashboard/DoctorDashboard.tsx:451-455 | profile tab on the dashboard view |
| DoctorDashboard.DoctorDashboard.SetCurrentView | src/components/dashboard/DoctorDashboard.tsx:463-491 | a card or a screen's back sets the view alone |
| DoctorDashboard.DoctorDashboard.SetActiveTab | src/components/dashboard/DoctorDashboard.tsx:687 | the bottom bar sets the tab alone |
| DoctorDashboard.DoctorDashboard.HandleJoinCall | src/components/dashboard/DoctorDashboard.tsx:497-500 | stores the id and opens pre-call |
| DoctorDashboard.DoctorDashboard.HandleAddNotes | src/components/dashboard/DoctorDashboard.tsx:502-505 | stores the id and opens notes |
| DoctorDashboard.DoctorDashboard.HandleBackToDashboard | src/components/dashboard/DoctorDashboard.tsx:507-510 | dashboard view on the home tab, appointment kept |
| DoctorDashboard.DoctorDashboard.HandleJoinCallFromPreCall | src/components/dashboard/DoctorDashboard.tsx:513 | opens in-call and changes nothing else |
| DoctorDashboard.DoctorDashboard.HandleEndCall | src/components/dashboard/DoctorDashboard.tsx:514 | opens end-call and changes nothing else |
| DoctorDashboard.DoctorDashboard.HandleEndCallToNotes | src/components/dashboard/DoctorDashboard.tsx:515 | opens notes and changes nothing else |
| PatientDashboard.GoTo | src/components/dashboard/PatientDashboard.tsx:98-119 | a voice branch changes only the view and the tab, and a changed view is a list, the booking form, the cart or the dashboard |
| PatientDashboard.VoiceNavigation | src/components/dashboard/PatientDashboard.tsx:98-119 | a voice command changes only the view and the tab; "profile" changes only the tab; an unmatched command changes nothing; no command opens a call, a detail view or the confirmation |
| PatientDashboard.VoiceTargetIsFirstMatch | src/components/dashboard/PatientDashboard.tsx:98-119 | the voice command's target is the first keyword rule, in the chain's order, that the lower-cased command contains |
| PatientDashboard.BookAnAppointmentOpensBooking | src/components/dashboard/PatientDashboard.tsx:101-103 | "book an appointment" opens the booking view |
| PatientDashboard.GoToAppointmentsOpensAppointments | src/components/dashboard/PatientDashboard.tsx:101-106 | "go to appointments" opens the appointment list, not the booking form, and keeps the tab |
| PatientDashboard.LineFor | src/components/dashboard/PatientDashboard.tsx:232-238 | the cart line carries the medicine's id and the chosen quantity, and is priced at the medicine's price per unit |
| PatientDashboard.Step | src/components/dashboard/PatientDashboard.tsx:93-269 | only adding and checkout change the cart, only checkout changes the order, only selecting a medicine changes the selected medicine, only joining from the list changes the appointment id |
| PatientDashboard.Render | src/components/dashboard/PatientDashboard.tsx:131-296 | the profile screen is drawn exactly on the profile tab when the view is the dashboard, or is medicine detail with no medicine (the fall-through); medicine detail is drawn exactly when that view has a selected medicine |
| PatientDashboard.Wired | src/components/dashboard/PatientDashboard.tsx:131-296 | hanging up is wired exactly on in-call, joining exactly on pre-call, checkout exactly in the cart, and adding exactly the detail screen's own in-stock medicine with a quantity of 1 to 10 |
| PatientDashboard.AddToCartAppendsOneLine | src/components/dashboard/PatientDashboard.tsx:231-240 | adding to the cart keeps the old lines, appends exactly one line built from the medicine and quantity, raises the count by one, returns to the list, and changes nothing else |
| PatientDashboard.CheckoutEmptiesCart | src/components/dashboard/PatientDashboard.tsx:250-255 | checkout empties the cart, stores the total and the order id "ORD-" + stamp, opens the confirmation, and keeps the tab and medicine |
| PatientDashboard.VideoCardKeepsAppointmentId | src/components/dashboard/PatientDashboard.tsx:88 | the Video Calls card opens pre-call with the old appointment id, whereas joining from the list stores the new one |
| PatientDashboard.ScreenExits | src/components/dashboard/PatientDashboard.tsx:144-269 | each sub-screen's callbacks lead only to the views it names |
| PatientDashboard.CallChainStep | src/components/dashboard/PatientDashboard.tsx:127-170 | in-call is entered only from pre-call by joining and left only by hanging up into end-call; end-call is entered only from in-call and leads only to the dashboard |
| PatientDashboard.StepKeepsConsistent | src/components/dashboard/PatientDashboard.tsx:93-269 | every wired handler keeps the state consistent: the medicine-detail view always has a medicine |
| PatientDashboard.RunKeepsConsistent | src/components/dashboard/PatientDashboard.tsx:93-269 | any wired run keeps it consistent, so the medicine-detail view always draws the detail screen |
| PatientDashboard.Trace | src/components/dashboard/PatientDashboard.tsx:93-269 | the states visited by a run: one more than the events, starting at the given state and ending at the run's result |
| PatientDashboard.CallChainAlongRun | src/components/dashboard/PatientDashboard.tsx:127-170 | along any wired run, every end-call state is preceded by an in-call one, and every in-call state by a pre-call or in-call one |
| PatientDashboard.PatientDashboard.constructor | src/components/dashboard/PatientDashboard.tsx:49-56 | the initial state |
| PatientDashboard.PatientDashboard.HandleVoiceNavigation | src/components/dashboard/PatientDashboard.tsx:98-119 | applies the voice step |
| PatientDashboard.PatientDashboard.SetCurrentView | src/components/dashboard/PatientDashboard.tsx:58-91 | a card sets the view alone |
| PatientDashboard.PatientDashboard.SetActiveTab | src/components/dashboard/PatientDashboard.tsx:292 | the bottom bar sets the tab alone |
| PatientDashboard.PatientDashboard.HandleJoinCall | src/components/dashboard/PatientDashboard.tsx:93-96 | stores the id and opens pre-call |
| PatientDashboard.PatientDashboard.HandleBackToDashboard | src/components/dashboard/PatientDashboard.tsx:121-124 | dashboard view on the home tab |
| PatientDashboard.PatientDashboard.HandleJoinCallFromPreCall | src/components/dashboard/PatientDashboard.tsx:127 | opens in-call, nothing else |
| PatientDashboard.PatientDashboard.HandleEndCall | src/components/dashboard/PatientDashboard.tsx:128 | opens end-call, nothing else |
| PatientDashboard.PatientDashboard.OnScanComplete | src/components/dashboard/PatientDashboard.tsx:180-183 | opens the reports list, nothing else |
| PatientDashboard.PatientDashboard.OnScanNew | src/components/dashboard/PatientDashboard.tsx:193 | opens the scanner, nothing else |
| PatientDashboard.PatientDashboard.OnViewReport | src/components/dashboard/PatientDashboard.tsx:194-197 | stores the report id and opens its detail |
| PatientDashboard.PatientDashboard.OnReportBack | src/components/dashboard/PatientDashboard.tsx:206 | back to the reports list |
| PatientDashboard.PatientDashboard.OnMedicineSelect | src/components/dashboard/PatientDashboard.tsx:216-219 | stores the medicine and opens its detail |
| PatientDashboard.PatientDashboard.OnCartOpen | src/components/dashboard/PatientDashboard.tsx:220 | opens the cart, nothing else |
| PatientDashboard.PatientDashboard.OnMedicineBack | src/components/dashboard/PatientDashboard.tsx:230 | back to the medicine list |
| PatientDashboard.PatientDashboard.OnAddToCart | src/components/dashboard/PatientDashboard.tsx:231-240 | appends one cart line and returns to the list |
| PatientDashboard.PatientDashboard.OnCartBack | src/components/dashboard/PatientDashboard.tsx:249 | back to the medicine list |
| PatientDashboard.PatientDashboard.OnCheckout | src/components/dashboard/PatientDashboard.tsx:250-255 | order id "ORD-" + clock stamp, the total, an empty cart, the confirmation view |
| AppointmentList.UpcomingList | src/components/appointments/AppointmentList.tsx:58 | exactly the upcoming appointments, in order, each as many times as in the list |
| AppointmentList.PastList | src/components/appointments/AppointmentList.tsx:59 | exactly the completed appointments, in order, each as many times as in the list |
| AppointmentList.TabsDisjoint | src/components/appointments/AppointmentList.tsx:58-59 | no appointment is on both tabs, and a cancelled one is on neither |
| AppointmentList.TabsPartition | src/components/appointments/AppointmentList.tsx:58-59 | the two tabs and the cancelled appointments together count every appointment once |
| AppointmentList.JoinButton | src/components/appointments/AppointmentList.tsx:102-104 | a Join button appears exactly on upcoming video appointments and joins that appointment's id |
| AppointmentList.OnlyFirstCanBeJoined | src/components/appointments/AppointmentList.tsx:25-56 | of the built-in appointments only the first offers Join |
| AppointmentManagement.WithStatus | src/components/appointments/AppointmentManagement.tsx:72-100 | the matching appointments take the new status, and all others stay unchanged in place |
| AppointmentManagement.LaterStatusWins | src/components/appointments/AppointmentManagement.tsx:72-100 | two rewrites of one id equal the later one alone; with equal statuses this is idempotence |
| AppointmentManagement.DifferentIdsCommute | src/components/appointments/AppointmentManagement.tsx:72-100 | rewrites of different ids commute |
| AppointmentManagement.PendingList | src/components/appointments/AppointmentManagement.tsx:112 | exactly the pending appointments, in order, each as many times as in the list |
| AppointmentManagement.TodayList | src/components/appointments/AppointmentManagement.tsx:113 | exactly the appointments dated "Today", in order, each as many times as in the list |
| AppointmentManagement.CompletedList | src/components/appointments/AppointmentManagement.tsx:114 | exactly the completed appointments, in order, each as many times as in the list |
| AppointmentManagement.PendingAndCompletedDisjoint | src/components/appointments/AppointmentManagement.tsx:112-114 | no appointment is both pending and completed |
| AppointmentManagement.LeavingPendingDropsFromTab | src/components/appointments/AppointmentManagement.tsx:72-114 | accept, reject or complete removes exactly that id from the pending tab and keeps the order of the rest |
| AppointmentManagement.TodayTabKeepsIds | src/components/appointments/AppointmentManagement.tsx:72-114 | a status change never adds to, removes from or reorders the Today tab |
| AppointmentManagement.Offered | src/components/appointments/AppointmentManagement.tsx:147-199 | which buttons a card shows for each status and visit type |
| AppointmentManagement.OfferedButtonsMoveForward | src/components/appointments/AppointmentManagement.tsx:147-199 | a status button a card offers always moves the appointment forward, and cancelled or completed cards offer none |
| AppointmentManagement.CancelledOffersNothing | src/components/appointments/AppointmentManagement.tsx:147-199 | a cancelled card has no buttons |
| AppointmentManagement.AppointmentManagement.constructor | src/components/appointments/AppointmentManagement.tsx:27-68 | the four built-in appointments |
| AppointmentManagement.AppointmentManagement.HandleAccept | src/components/appointments/AppointmentManagement.tsx:72-80 | rewrites the id to accepted and returns the "Appointment Accepted" toast |
| AppointmentManagement.AppointmentManagement.HandleReject | src/components/appointments/AppointmentManagement.tsx:82-90 | rewrites the id to cancelled and returns the "Appointment Cancelled" toast |
| AppointmentManagement.AppointmentManagement.HandleComplete | src/components/appointments/AppointmentManagement.tsx:92-100 | rewrites the id to completed and returns the "Appointment Completed" toast |
| AppointmentManagement.AppointmentManagement.Press | src/components/appointments/AppointmentManagement.tsx:147-199 | a status button rewrites the card's own id; Join Call and Notes hand that id to the parent and leave the list alone |
| BookAppointment.Booking | src/components/appointments/BookAppointment.tsx:41-56 | booking succeeds exactly when doctor, date and time are all chosen, and the toast is an error exactly when it fails |
| BookAppointment.SlotsDistinct | src/components/appointments/BookAppointment.tsx:35-39 | the time slots are pairwise different |
| BookAppointment.AtMostOneSlot | src/components/appointments/BookAppointment.tsx:119-123 | at most one slot is highlighted |
| BookAppointment.BookAppointment.constructor | src/components/appointments/BookAppointment.tsx:22-25 | nothing chosen |
| BookAppointment.BookAppointment.SelectDoctor | src/components/appointments/BookAppointment.tsx:73 | sets the doctor alone |
| BookAppointment.BookAppointment.SelectDate | src/components/appointments/BookAppointment.tsx:106 | sets the date alone |
| BookAppointment.BookAppointment.SelectTime | src/components/appointments/BookAppointment.tsx:121-123 | sets the time alone, and exactly that one slot is highlighted |
| BookAppointment.BookAppointment.SetReason | src/components/appointments/BookAppointment.tsx:137 | sets the reason alone |
| BookAppointment.BookAppointment.HandleBooking | src/components/appointments/BookAppointment.tsx:41-56 | calls back exactly when doctor, date and time are chosen |
| Cart.InitialItems | src/components/pharmacy/Cart.tsx:22-26 | the given lines if there are any, otherwise the three default lines; positive quantities stay positive |
| Cart.Bumped | src/components/pharmacy/Cart.tsx:30-35 | only the quantity may change, only on a line with that id, and by exactly the change; a positive quantity stays positive |
| Cart.BumpAll | src/components/pharmacy/Cart.tsx:29-35 | each line is mapped alone, and the length is kept |
| Cart.WithQuantityChange | src/components/pharmacy/Cart.tsx:28-38 | never longer than before, and every line left has a positive quantity |
| Cart.QuantityChangeOnPositiveCart | src/components/pharmacy/Cart.tsx:28-38 | on a cart of positive quantities nothing is dropped: other lines are untouched, and a matching line changes by exactly the change, or not at all when that would reach zero |
| Cart.QuantityChangeDropsOnlyNonPositive | src/components/pharmacy/Cart.tsx:28-38 | the trailing filter drops only non-positive lines and keeps the order |
| Cart.Without | src/components/pharmacy/Cart.tsx:40-42 | exactly the lines with another id, in order, each as many times as in the cart |
| Cart.RemoveAbsentOrTwice | src/components/pharmacy/Cart.tsx:40-42 | removing an absent id changes nothing, and removing twice is removing once |
| Cart.Ids | src/components/pharmacy/Cart.tsx:40-42 | the ids of the lines, position by position |
| Cart.SubsequenceIds | src/components/pharmacy/Cart.tsx:28-42 | keeping a subsequence of lines keeps a subsequence of ids |
| Cart.CartOperationsKeepOrder | src/components/pharmacy/Cart.tsx:28-42 | neither button adds or reorders lines |
| Cart.SubtotalNonNegative | src/components/pharmacy/Cart.tsx:44 | with no negative price or quantity the subtotal is not negative |
| Cart.SubtotalAppend | src/components/pharmacy/Cart.tsx:44 | the subtotal is additive over concatenation |
| Cart.IncrementAddsPrice | src/components/pharmacy/Cart.tsx:28-44 | the plus button raises the subtotal by the price of the lines carrying that id |
| Cart.BumpSubtotal | src/components/pharmacy/Cart.tsx:29-44 | the subtotal after the +1 map is the old one plus the price of the matching lines |
| Cart.DeliveryFee | src/components/pharmacy/Cart.tsx:45 | free exactly above 50.00, otherwise 5.99 |
| Cart.Total | src/components/pharmacy/Cart.tsx:46 | the subtotal, plus 5.99 up to 50.00 |
| Cart.Cart.constructor | src/components/pharmacy/Cart.tsx:22-26 | the initial lines |
| Cart.Cart.UpdateQuantity | src/components/pharmacy/Cart.tsx:28-38 | applies the quantity change; a positive cart stays positive and keeps its length |
| Cart.Cart.RemoveItem | src/components/pharmacy/Cart.tsx:40-42 | removes the id; no remaining line carries it |
| Cart.Cart.HandleCheckout | src/components/pharmacy/Cart.tsx:48-50 | hands over the lines and the total, whose difference from the subtotal is the delivery fee |
| MedicineList.FilteredMedicines | src/components/pharmacy/MedicineList.tsx:87-92 | exactly the medicines matching the search (case-insensitive, name or generic name) and the category, in order, each as many times as in the catalogue |
| MedicineList.EmptySearchShowsAll | src/components/pharmacy/MedicineList.tsx:87-92 | an empty search in "all" shows the whole catalogue |
| MedicineList.FilterThenFilter | src/components/pharmacy/MedicineList.tsx:87-92 | a category filters the "all" result of the same search |
| MedicineList.MedicineList.constructor | src/components/pharmacy/MedicineList.tsx:29-30 | empty search in "all", showing the whole catalogue |
| MedicineList.MedicineList.Filtered | src/components/pharmacy/MedicineList.tsx:87-92 | the shown list is the filtered catalogue for the current search and category |
| MedicineList.MedicineList.SetSearchQuery | src/components/pharmacy/MedicineList.tsx:103-119 | sets the search and keeps the category |
| MedicineList.MedicineList.SetSelectedCategory | src/components/pharmacy/MedicineList.tsx:126-131 | sets the category and keeps the search |
| MedicineDetail.ChangedQuantity | src/components/pharmacy/MedicineDetail.tsx:36-41 | the quantity changes by exactly the step when that stays within 1..10, otherwise it is unchanged |
| MedicineDetail.PressesStayInRange | src/components/pharmacy/MedicineDetail.tsx:26-41 | after any sequence of presses from any start, the quantity is within 1..10 |
| MedicineDetail.ButtonsAgreeWithClamp | src/components/pharmacy/MedicineDetail.tsx:36-41 | minus lowers the quantity exactly when it is above 1, plus raises it exactly when it is below 10 |
| MedicineDetail.MedicineDetail.constructor | src/components/pharmacy/MedicineDetail.tsx:26 | quantity 1 |
| MedicineDetail.MedicineDetail.HandleQuantityChange | src/components/pharmacy/MedicineDetail.tsx:36-41 | applies the clamped change; the quantity stays in range |
| MedicineDetail.MedicineDetail.HandleAddToCart | src/components/pharmacy/MedicineDetail.tsx:43-45 | pressable only for a medicine in stock; hands over the medicine and a quantity within 1..10 |
| ReportsList.AllReports | src/components/reports/ReportsList.tsx:34-88 | the built-in reports first, then the given ones |
| ReportsList.FilteredReports | src/components/reports/ReportsList.tsx:90-93 | exactly the reports matching the query, in order, each as many times as in the list |
| ReportsList.EmptyQueryShowsAll | src/components/reports/ReportsList.tsx:90-93 | an empty query shows every report |
| ReportsList.BuiltInsFirst | src/components/reports/ReportsList.tsx:34-93 | filtering keeps the built-in matches ahead of the given ones |
| ReportsList.ViewButton | src/components/reports/ReportsList.tsx:273-279 | View opens the image modal exactly for report "1", and hands any other report's own id to the parent |
| ReportsList.ReportsList.constructor | src/components/reports/ReportsList.tsx:30-32 | empty query, modal closed, all reports shown |
| ReportsList.ReportsList.Shown | src/components/reports/ReportsList.tsx:90-93 | the shown list is the built-in and given reports filtered by the current query |
| ReportsList.ReportsList.SetSearchQuery | src/components/reports/ReportsList.tsx:213-224 | sets the query alone |
| ReportsList.ReportsList.View | src/components/reports/ReportsList.tsx:273-279 | applies the View button; the modal opens only for report "1" |
| ReportsList.ReportsList.CloseModal | src/components/reports/ReportsList.tsx:119 | closes the modal |
| DocumentScanner.IndicatorMark | src/components/reports/DocumentScanner.tsx:66-73 | the step indicator marks the current step active, the earlier ones done and the later ones ahead |
| DocumentScanner.Next | src/components/reports/DocumentScanner.tsx:13-46 | through the controls a step shows, no action skips a step, and confirm is entered only by cropping; a file dialog closed without a file changes nothing |
| DocumentScanner.NewDocument | src/components/reports/DocumentScanner.tsx:26-34 | the document name defaults to "Medical Report" and is never empty; the type is "Blood Test" |
| DocumentScanner.DocumentScanner.constructor | src/components/reports/DocumentScanner.tsx:13-15 | scan step, no name, no preview |
| DocumentScanner.DocumentScanner.HandleScan | src/components/reports/DocumentScanner.tsx:17-20 | moves to crop |
| DocumentScanner.DocumentScanner.HandleCrop | src/components/reports/DocumentScanner.tsx:22-24 | moves to confirm |
| DocumentScanner.DocumentScanner.HandleRetake | src/components/reports/DocumentScanner.tsx:138 | back to scan |
| DocumentScanner.DocumentScanner.HandleBack | src/components/reports/DocumentScanner.tsx:188 | back to crop |
| DocumentScanner.DocumentScanner.HandleFileSelect | src/components/reports/DocumentScanner.tsx:38-46 | a chosen file becomes the preview and opens crop; no file changes nothing |
| DocumentScanner.DocumentScanner.SetDocumentName | src/components/reports/DocumentScanner.tsx:175 | sets the name alone |
| DocumentScanner.DocumentScanner.HandleConfirm | src/components/reports/DocumentScanner.tsx:26-34 | builds the document with a non-empty name |
| PatientAuth.Submit | src/components/auth/PatientAuth.tsx:37-64 | sign-in succeeds exactly with email and password filled, and in sign-up mode a matching confirmation; the toast is an error exactly on failure, with the title for each case |
| PatientAuth.LoginIgnoresConfirmation | src/components/auth/PatientAuth.tsx:37-64 | in login mode the confirmation field plays no part |
| PatientAuth.MissingFieldsReportedFirst | src/components/auth/PatientAuth.tsx:40-47 | a missing email or password is reported before a mismatch, and blocks sign-in |
| PatientAuth.PatientAuth.constructor | src/components/auth/PatientAuth.tsx:16-23 | login mode, all fields empty |
| PatientAuth.PatientAuth.SetName | src/components/auth/PatientAuth.tsx:168 | sets the name alone |
| PatientAuth.PatientAuth.SetPhone | src/components/auth/PatientAuth.tsx:180 | sets the phone alone |
| PatientAuth.PatientAuth.SetEmail | src/components/auth/PatientAuth.tsx:129 | sets the email alone |
| PatientAuth.PatientAuth.SetPassword | src/components/auth/PatientAuth.tsx:143 | sets the password alone |
| PatientAuth.PatientAuth.SetConfirmPassword | src/components/auth/PatientAuth.tsx:193 | sets the confirmation alone |
| PatientAuth.PatientAuth.ToggleShowPassword | src/components/auth/PatientAuth.tsx:153 | flips password visibility alone |
| PatientAuth.PatientAuth.ToggleMode | src/components/auth/PatientAuth.tsx:27-35 | flips the mode and clears every field |
| PatientAuth.PatientAuth.HandleSubmit | src/components/auth/PatientAuth.tsx:37-64 | the submit outcome for the current fields; logging in needs email and password |
| PatientAuth.PatientAuth.HandleFingerprintClick | src/components/auth/PatientAuth.tsx:66-68 | opens the fingerprint dialog alone |
| PatientAuth.PatientAuth.HandleFingerprintImageClick | src/components/auth/PatientAuth.tsx:70-73 | closes the dialog and logs in |
| DoctorAuth.Submit | src/components/auth/DoctorAuth.tsx:29-43 | submitting always logs in, and only the toast title depends on the mode |
| DoctorAuth.OnlyToastDependsOnMode | src/components/auth/DoctorAuth.tsx:29-43 | both modes log in, with different toasts |
| DoctorAuth.UploadCaption | src/components/auth/DoctorAuth.tsx:135-137 | "Upload Documents" exactly when no file is chosen; otherwise the count in decimal followed by " file(s) selected", and the count reads back from the leading digits |
| DoctorAuth.DoctorAuth.constructor | src/components/auth/DoctorAuth.tsx:15-20 | login mode, empty fields, no certificates |
| DoctorAuth.DoctorAuth.SetEmail | src/components/auth/DoctorAuth.tsx:85 | sets the email alone |
| DoctorAuth.DoctorAuth.SetPassword | src/components/auth/DoctorAuth.tsx:97 | sets the password alone |
| DoctorAuth.DoctorAuth.SetName | src/components/auth/DoctorAuth.tsx:72 | sets the name alone |
| DoctorAuth.DoctorAuth.SetLicense | src/components/auth/DoctorAuth.tsx:111 | sets the licence alone |
| DoctorAuth.DoctorAuth.HandleFileUpload | src/components/auth/DoctorAuth.tsx:23-27 | a chosen file list replaces the certificates; no list keeps them |
| DoctorAuth.DoctorAuth.ToggleMode | src/components/auth/DoctorAuth.tsx:156 | flips the mode and keeps every field |
| DoctorAuth.DoctorAuth.HandleSubmit | src/components/auth/DoctorAuth.tsx:29-43 | always logs in |
| PatientDetail.Download | src/components/patients/PatientDetail.tsx:87-96 | a download link exactly for a document with a non-empty url, named after the document; otherwise the "No file available" alert |
| PatientDetail.PatientDetail.constructor | src/components/patients/PatientDetail.tsx:85 | the viewer is closed |
| PatientDetail.PatientDetail.HandleDownload | src/components/patients/PatientDetail.tsx:87-96 | the download outcome |
| PatientDetail.PatientDetail.HandleView | src/components/patients/PatientDetail.tsx:98-104 | opens the viewer on the document's url, or alerts and keeps the viewer when it has none |
| PatientDetail.PatientDetail.Close | src/components/patients/PatientDetail.tsx:155 | closes the viewer |
| PatientsList.Find | src/components/patients/PatientsList.tsx:303-305 | the first patient with that id, and none exactly when no patient carries it |
| PatientsList.Render | src/components/patients/PatientsList.tsx:303-307 | the list is drawn exactly when no non-empty id is selected; a selected known id draws that patient; an unknown one draws nothing |
| PatientsList.ViewOpensThatPatient | src/components/patients/PatientsList.tsx:303-307 | selecting a listed patient opens exactly that patient |
| PatientsList.UploadNotice | src/components/patients/PatientsList.tsx:293-301 | a notice naming the patient id exactly when files were chosen for a non-empty id |
| PatientsList.PatientsList.constructor | src/components/patients/PatientsList.tsx:283 | nothing selected, the list shown |
| PatientsList.PatientsList.View | src/components/patients/PatientsList.tsx:325 | selects the patient, whose detail is then drawn |
| PatientsList.PatientsList.Back | src/components/patients/PatientsList.tsx:306-312 | from the detail returns to the list; from the list leaves the screen |
| PatientsList.PatientsList.HandleUploadClick | src/components/patients/PatientsList.tsx:286-291 | remembers the patient the upload is for |
| PatientsList.PatientsList.HandleFileChange | src/components/patients/PatientsList.tsx:293-301 | returns the upload notice and clears the file input |
| InCallScreen.PaddedField | src/components/video/InCallScreen.tsx:34-38 | a padded numeral reads back as its value, and below 100 is exactly two digits |
| InCallScreen.FormatDurationFields | src/components/video/InCallScreen.tsx:34-38 | the timer shows whole minutes and two-digit seconds, and is five characters below 100 minutes |
| InCallScreen.FormatDurationRoundTrip | src/components/video/InCallScreen.tsx:34-38 | reading the timer text back gives the duration |
| InCallScreen.FormatDurationInjective | src/components/video/InCallScreen.tsx:34-38 | different durations never show the same text |
| InCallScreen.InCallScreen.constructor | src/components/video/InCallScreen.tsx:14-17 | camera and microphone on, zero seconds, chat closed |
| InCallScreen.InCallScreen.Display | src/components/video/InCallScreen.tsx:68 | the shown timer reads back as the call duration |
| InCallScreen.InCallScreen.Tick | src/components/video/InCallScreen.tsx:27-29 | one second more and nothing else |
| InCallScreen.InCallScreen.ToggleCamera | src/components/video/InCallScreen.tsx:130 | flips the camera alone |
| InCallScreen.InCallScreen.ToggleMic | src/components/video/InCallScreen.tsx:139 | flips the microphone alone |
| InCallScreen.InCallScreen.ToggleChat | src/components/video/InCallScreen.tsx:148 | flips the chat panel alone |
| InCallScreen.InCallScreen.CloseChat | src/components/video/InCallScreen.tsx:105 | closes the chat panel alone |
| PreCallScreen.JoinCaption | src/components/video/PreCallScreen.tsx:130-136 | "Join Call" exactly once the check has finished |
| PreCallScreen.PreCallScreen.constructor | src/components/video/PreCallScreen.tsx:15-17 | camera and microphone on, not ready, Join disabled |
| PreCallScreen.PreCallScreen.CheckFinished | src/components/video/PreCallScreen.tsx:30 | the check finishing makes Join enabled |
| PreCallScreen.PreCallScreen.ToggleCamera | src/components/video/PreCallScreen.tsx:84 | flips the camera alone |
| PreCallScreen.PreCallScreen.ToggleMic | src/components/video/PreCallScreen.tsx:93 | flips the microphone alone |
| PreCallScreen.PreCallScreen.PressJoin | src/components/video/PreCallScreen.tsx:130-136 | joins exactly when ready |
| Recording.Toggle | src/components/voice/VoiceAssistant.tsx:19-50 | starting clears the transcription and schedules a timer that captured "not recording"; stopping schedules nothing |
| Recording.Fire | src/components/voice/VoiceAssistant.tsx:27-45 | a timer whose captured flag is false does nothing; otherwise it shows the phrase and stops |
| Recording.ScheduledTimersAreStale | src/components/voice/VoiceNavigator.tsx:29-46 | every scheduled timer captured false, so its firing changes nothing |
| Recording.NoTranscriptionEver | src/components/voice/VoiceInput.tsx:31-48 | along any run of presses, timer firings and dismissals from a quiet recorder, no transcription is ever shown |
| Recording.IdleStaysQuiet | src/components/voice/VoiceAssistant.tsx:19-50 | from the initial recorder, the transcription stays empty and hidden |
| VoiceAssistant.ButtonLabel | src/components/voice/VoiceAssistant.tsx:135-138 | the button reads "Navigate" or "Use as Input" |
| VoiceAssistant.LabelMatchesClassifier | src/components/voice/VoiceAssistant.tsx:135-138 | it reads "Navigate" exactly when the text contains a navigation keyword |
| VoiceAssistant.UseInput | src/components/voice/VoiceAssistant.tsx:52-67 | empty text does nothing; otherwise the dialog closes, and the lower-cased text navigates exactly for a navigation command when navigation is wired, else the text is used as input when that is wired |
| VoiceAssistant.NeverBothCallbacks | src/components/voice/VoiceAssistant.tsx:52-67 | never both navigates and uses the input |
| VoiceAssistant.VoiceAssistant.constructor | src/components/voice/VoiceAssistant.tsx:15-17 | the idle recorder |
| VoiceAssistant.VoiceAssistant.HandleToggleRecording | src/components/voice/VoiceAssistant.tsx:19-50 | the recorder toggle and the timer it schedules |
| VoiceAssistant.VoiceAssistant.TimerFires | src/components/voice/VoiceAssistant.tsx:27-45 | the timer's effect |
| VoiceAssistant.VoiceAssistant.HandleUseInput | src/components/voice/VoiceAssistant.tsx:52-67 | the use-input outcome for the current transcription |
| VoiceNavigator.Execute | src/components/voice/VoiceNavigator.tsx:48-53 | navigates with the lower-cased text exactly when it is non-empty and navigation is wired, and closes exactly then |
| VoiceNavigator.VoiceNavigator.constructor | src/components/voice/VoiceNavigator.tsx:14-16 | the idle recorder |
| VoiceNavigator.VoiceNavigator.HandleToggleRecording | src/components/voice/VoiceNavigator.tsx:29-46 | the recorder toggle and the timer it schedules |
| VoiceNavigator.VoiceNavigator.TimerFires | src/components/voice/VoiceNavigator.tsx:35-42 | the timer's effect |
| VoiceNavigator.VoiceNavigator.HandleExecuteCommand | src/components/voice/VoiceNavigator.tsx:48-53 | the execute outcome for the current transcription |
| VoiceInput.VoiceInput.constructor | src/components/voice/VoiceInput.tsx:17-19 | the idle recorder |
| VoiceInput.VoiceInput.HandleVoiceInput | src/components/voice/VoiceInput.tsx:31-48 | the recorder toggle and the timer it schedules |
| VoiceInput.VoiceInput.TimerFires | src/components/voice/VoiceInput.tsx:37-44 | the timer's effect |
| VoiceInput.VoiceInput.HandleUseTranscription | src/components/voice/VoiceInput.tsx:50-54 | sends the transcription, then clears and hides it |
| VoiceInput.VoiceInput.Cancel | src/components/voice/VoiceInput.tsx:95 | hides the transcription and keeps it |
| VoiceInput.VoiceInput.HandleTyped | src/components/voice/VoiceInput.tsx:61 | sends the typed text as it is |
| UseBiometricAuth.BiometryTypeName | src/hooks/useBiometricAuth.ts:118-133 | Touch ID, Face ID, Fingerprint, Face Authentication and Iris Authentication for the five named types; the generic name exactly for an unknown or multiple type |
| UseBiometricAuth.NamesAreDistinct | src/hooks/useBiometricAuth.ts:118-133 | different biometry types have different names |
| UseBiometricAuth.ErrorMessage | src/hooks/useBiometricAuth.ts:105 | never empty, and the thrown message when it has one |
| UseBiometricAuth.MissingMessageFallsBack | src/hooks/useBiometricAuth.ts:105-108 | an error without a message always asks for the fallback |
| UseBiometricAuth.AuthenticateDecision | src/hooks/useBiometricAuth.ts:60-116 | the result on each path: not initialised, the web mock (success iff the draw succeeds, fallback otherwise), not available, verified, or thrown with the error message |
| UseBiometricAuth.SuccessAndFallbackExclusive | src/hooks/useBiometricAuth.ts:60-116 | a successful result carries no error and never asks for the fallback; a failed one always carries a non-empty error |
| UseBiometricAuth.UseBiometricAuth.constructor | src/hooks/useBiometricAuth.ts:12-14 | not available, no type, no plugin |
| UseBiometricAuth.UseBiometricAuth.CheckAvailability | src/hooks/useBiometricAuth.ts:40-58 | without the plugin nothing changes; on the web it is a fingerprint; on a device it takes the probe's answer, or not available when the probe fails |
| UseBiometricAuth.UseBiometricAuth.Initialize | src/hooks/useBiometricAuth.ts:16-38 | loads the plugin but leaves availability as it was, because the check ran before the plugin was set |
| UseBiometricAuth.UseBiometricAuth.Authenticate | src/hooks/useBiometricAuth.ts:60-116 | the decision for the current state; a device without availability always gets the fallback |
| BiometricAuth.Precheck | src/components/auth/BiometricAuth.tsx:26-44 | the attempt proceeds exactly with name, phone and availability; a missing field gives an error and no callback, while missing availability gives the fallback |
| BiometricAuth.Settle | src/components/auth/BiometricAuth.tsx:47-73 | success exactly when the prompt resolved successfully, welcoming the user by name; every other ending falls back with an error toast |
| BiometricAuth.HandleBiometric | src/components/auth/BiometricAuth.tsx:26-73 | no callback exactly when a field is empty; success exactly with both fields filled, biometrics available and a successful prompt; every other press falls back |
| BiometricAuth.UndetectedAvailabilityAlwaysFallsBack | src/components/auth/BiometricAuth.tsx:36-44 | with both fields filled and availability false, the outcome is the "Biometric Not Available" error toast and the fallback |
| BiometricAuth.BiometricAuth.constructor | src/components/auth/BiometricAuth.tsx:20-22 | empty fields, buttons enabled |
| BiometricAuth.BiometricAuth.SetName | src/components/auth/BiometricAuth.tsx:92 | sets the name alone |
| BiometricAuth.BiometricAuth.SetPhone | src/components/auth/BiometricAuth.tsx:104 | sets the phone alone |
| BiometricAuth.BiometricAuth.Press | src/components/auth/BiometricAuth.tsx:26-46 | returns the precheck outcome, or starts the attempt and disables the buttons |
| BiometricAuth.BiometricAuth.Finish | src/components/auth/BiometricAuth.tsx:47-73 | settles the attempt and re-enables the buttons |
| Decimal.NatToString | src/components/video/InCallScreen.tsx:35-36 | a non-empty string of digits, one digit exactly below ten |
| Decimal.ParseNatToString | src/components/video/InCallScreen.tsx:35-36 | a numeral reads back as its number |
| Decimal.PadStart | src/components/video/InCallScreen.tsx:37 | at least the width, and the original string as suffix |
| Decimal.ParsePadStart | src/components/video/InCallScreen.tsx:37 | zero padding does not change the value read |

## Left out

- Markup, styling and icons are not modelled. A closed dialog draws nothing, and that drawing is markup too. The model keeps only the open/closed flags and what each button does.
- Text is compared in ASCII. `toLowerCase` is modelled only on `A`–`Z`.
- Prices are integer cents rather than floating-point dollars. `toFixed` formatting is not modelled.
- `Date.now()`, `new Date()`, `Math.random()` and `URL.createObjectURL` are parameters. `setTimeout` and `setInterval` firings are separate methods. Unmounting, and timers cancelled in cleanup functions, are not modelled.
- `console.log`, `alert`, toasts, the download link click and the components' callbacks are returned as outcome values, not performed.
- The browser's `required` attributes on form fields are not modelled. Only the handlers' own checks are.
- The doctors offered by the booking form's select are static data. The model takes the chosen doctor's id as a string.
- BookAppointment's rule that past dates cannot be picked in the calendar (src/components/appointments/BookAppointment.tsx:107) is not modelled. The date is any `Option<Date>`.
- The Cart screen keeps its own copy of the lines. Its changes do not flow back to the dashboard's cart, and the model keeps the two separate, as the code does.
- Capacitor platform detection and the dynamic plugin import are reduced to a `Platform` parameter and a `pluginLoaded` flag.
- src/utils/biometric-fallback.ts is not part of this model.
- HomePage, RoleSelection, LanguageSelection, OrderConfirmation, ReportDetail, EndCallScreen, PatientNotes, the profile screens, BottomNav and SOSButton show data or forward a single callback. They are not part of this model beyond the callbacks the modelled screens wire to them.
- VoiceReader and VoiceButton are not part of this model.
- The dashboards' static card counts and labels are display text and are left out.
