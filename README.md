# SnipRewards loyalty core in Dafny

SnipRewards is a loyalty program for hair salons. The salon store keeps its customers and visits
in memory. It enforces two rules:

- **Tier from visit count.** Bronze below 5 visits, Silver from 5, Gold from 10, Platinum from 20.
- **Points from amount.** One point per 10 currency units, rounded down.

Its operations are `addCustomer`, `updateCustomer`, `addVisit`, `getCustomerByPhone` and
`setSalon`, plus the seed data loaded when a user signs in.

Around the store sit these pieces:

- the session store (a demo-roster login, registration, logout and a profile merge);
- the statistics that the dashboard and analytics pages derive;
- the customer details view (tier progression);
- the form state machines that drive the stores (add-visit, settings, SMS campaign and QR check-in).

## How the project is laid out

There is one Dafny module per source file:

| module | source file |
|---|---|
| `SalonStore` | `src/contexts/SalonContext.tsx` |
| `SessionStore` | `src/contexts/AuthContext.tsx` |
| `AddVisitForm` | `src/components/AddVisitModal.tsx` |
| `Analytics` | `src/pages/Analytics.tsx` |
| `Dashboard` | `src/pages/Dashboard.tsx` |
| `CustomerDetails` | `src/components/CustomerDetailsModal.tsx` |
| `SmsCampaign` | `src/components/SMSCampaignModal.tsx` |
| `Settings` | `src/pages/Settings.tsx` |
| `ScanQr` | `src/pages/ScanQR.tsx` |

Three helper modules support them:

- `Wrappers` holds `Option`.
- `ArrayOps` holds the JavaScript array operations the source uses (`find`, `filter`, `slice`, a filter that drops one value).
- `Ranking` holds the descending sort, both as a function and as an in-place method on an array.

**State that changes in place.** Each piece of React state that handlers reassign becomes a field of
a class:

- the store's `salon`, `customers` and `visits`;
- the session's `user` and `isLoading`;
- each form's input fields.

The handlers become methods with `modifies` clauses. Each state change is specified by a pure
function of the old state. For example, `RecordVisitSeen` specifies what `addVisit` does to the customer
list, given the list its closure captured. Invariants such as "tier equals the tier rule applied to visits" are proved about those
functions.

**The dashboard's sorts.** The dashboard sorts the shared customer and visit arrays in place. It is
modelled as a method that copies each list into an array, sorts it in place by insertion, and
writes it back.

**Values the model takes as parameters:**

- *Clock readings.* `Date.now()` ids and ISO timestamps are passed in. In the add-visit form they
  are bundled as `Instants`.
- *Date handling.* Ordering visits by date uses a `dateKey: string -> int` parameter, standing for
  `new Date(s).getTime()`. "Is today" and "inactive for 30 days" are predicate parameters.
- *The amount.* The parsed amount is an integer parameter.
- *The stored session.* The session restored from storage is given to the constructor.

Averages and progress percentages are exact reals.

## Model

| member | source | states |
|---|---|---|
| SalonStore.TierBands | src/contexts/SalonContext.tsx:311-316 | The tier is Bronze exactly below 5 visits, Silver exactly for 5..9, Gold exactly for 10..19 and Platinum exactly from 20. |
| SalonStore.TierMonotone | src/contexts/SalonContext.tsx:311-316 | More visits never give a lower tier. |
| SalonStore.CalculatePoints | src/contexts/SalonContext.tsx:318-320 | The points `p` for an amount `a` satisfy `10p <= a < 10p + 10`, i.e. floor(a/10), for negative amounts too. |
| SalonStore.PointsMonotone | src/contexts/SalonContext.tsx:318-320 | A larger amount never earns fewer points. |
| SalonStore.FindByPhone | src/contexts/SalonContext.tsx:307-309 | Nothing is found exactly when no customer has the phone; a found customer is in the list and has that phone. |
| SalonStore.FirstByPhone | src/contexts/SalonContext.tsx:307-309 | The lookup returns the first customer in list order with the phone. |
| SalonStore.FindById | src/contexts/SalonContext.tsx:285 | Nothing is found exactly when no customer has the id; a found customer is in the list and has that id. |
| SalonStore.FirstById | src/contexts/SalonContext.tsx:285 | The lookup by id returns the first customer in list order with that id. |
| SalonStore.NewCustomerStartsAtZero | src/contexts/SalonContext.tsx:251-261 | A new customer starts with 0 visits, spend and points, next reward at 5, Bronze, which is the tier the rule gives 0 visits. |
| SalonStore.PatchWhereId | src/contexts/SalonContext.tsx:270-274 | Length and order are kept; every record with the id gets the patch merged in, every other record is identical. |
| SalonStore.RecordVisitOrphan | src/contexts/SalonContext.tsx:282-286 | A visit whose customer id matches no customer leaves the customer list unchanged. |
| SalonStore.MergeRollup | src/contexts/SalonContext.tsx:286-298 | The roll-up patch sets visits + 1, spend + amount, points + the caller's points, the tier for the new count and the visit date, and nothing else. |
| SalonStore.RecordVisitRollsUp | src/contexts/SalonContext.tsx:285-298 | When the first customer with the visit's id is at index k, that record is rolled up, the length is kept and every record with another id is untouched. |
| SalonStore.RecordVisitKeepsTiers | src/contexts/SalonContext.tsx:287-296 | Recording a visit preserves "tier == tier rule applied to visits" for every customer, whichever captured list the lookup used. |
| SalonStore.AppendedCustomerNotCredited | src/contexts/SalonContext.tsx:285 | A customer appended after the list was captured is not credited with the visit when no captured customer has the visit's id: the list is returned as it was. |
| SalonStore.RecordVisitMonotone | src/contexts/SalonContext.tsx:276-298 | With unique ids and consistent tiers, recording a visit keeps the length, never lowers anyone's visits or tier, and changes at most one record. |
| SalonStore.DuplicateIdCanDemote | src/contexts/SalonContext.tsx:271-272 | With two customers sharing an id, the patch computed from the first overwrites the second: a Gold customer with 12 visits drops to 1 visit and Bronze. |
| SalonStore.LookupAfterAdd | src/contexts/SalonContext.tsx:251-263 | No phone check on add: looking up the new phone finds the new record only if no earlier customer had that phone, else still the earlier one. |
| SalonStore.AddKeepsInvariants | src/contexts/SalonContext.tsx:255-263 | Appending a new customer keeps tiers consistent, and keeps ids unique when its id is fresh. |
| SalonStore.SeedCustomersConsistent | src/contexts/SalonContext.tsx:106-180 | Every seed customer's tier matches its visits and its points are the points for its spend; seed ids are unique. |
| SalonStore.SeedVisitsConsistent | src/contexts/SalonContext.tsx:182-238 | Every seed visit earned the points for its amount and belongs to a seed customer. |
| SalonStore.Store.constructor | src/contexts/SalonContext.tsx:79-82 | The store starts with no salon, no customers, no visits, and loading. |
| SalonStore.Store.Load | src/contexts/SalonContext.tsx:86-249 | A signed-in user gets the salon built from the profile with the seed lists; no user clears everything; loading ends; the loaded customers satisfy both invariants. |
| SalonStore.Store.AddCustomer | src/contexts/SalonContext.tsx:251-268 | Exactly one new customer is appended at the end and earlier ones are unchanged; tier consistency is preserved. |
| SalonStore.Store.UpdateCustomer | src/contexts/SalonContext.tsx:270-274 | The customer list becomes the patch-by-id of the old list. |
| SalonStore.Store.AddVisit | src/contexts/SalonContext.tsx:276-305 | The visit is always appended with its id. The customer is looked up in the captured list, and the customers become the current list with that record's roll-up merged into every record with its id; with a fresh capture this is the plain roll-up. Tier consistency is preserved. |
| SalonStore.Store.SetSalon | src/contexts/SalonContext.tsx:322-324 | The salon becomes the given one. |
| SessionStore.MatchCredentials | src/contexts/AuthContext.tsx:93 | No match exactly when no roster entry has both the email and the password; a match is such an entry. |
| SessionStore.MergeUser | src/contexts/AuthContext.tsx:183 | An empty patch leaves the user unchanged. |
| SessionStore.MergeUserIdempotent | src/contexts/AuthContext.tsx:183 | Applying the same partial update twice is the same as once. |
| SessionStore.RegisteredEmailCannotLogIn | src/contexts/AuthContext.tsx:93-137 | An email not on the fixed roster (so registration accepts it) can never log in: registered accounts are not added to the roster. |
| SessionStore.DemoCredentialsWork | src/contexts/AuthContext.tsx:41-66 | The demo email with its password logs in as the first roster entry; with another entry's password it fails. |
| SessionStore.Session.constructor | src/contexts/AuthContext.tsx:69-84 | The session starts from the restored user, not loading. |
| SessionStore.Session.Login | src/contexts/AuthContext.tsx:86-119 | Success exactly when a roster entry matches both fields; on success the user is that entry without its password; on failure the user is unchanged; loading ends either way. |
| SessionStore.Session.Register | src/contexts/AuthContext.tsx:121-170 | Success exactly when the email is not on the roster; on success the user is the new trial account with the supplied fields, expiring 14 days after now; on failure unchanged; loading ends. |
| SessionStore.Session.Logout | src/contexts/AuthContext.tsx:172-174 | There is no user afterwards. |
| SessionStore.Session.UpdateProfile | src/contexts/AuthContext.tsx:181-185 | The supplied fields are merged into the current user; with no user nothing happens. |
| AddVisitForm.ToggleFlips | src/components/AddVisitModal.tsx:45-51 | Toggling flips the membership of that service only and keeps the list duplicate-free. |
| AddVisitForm.ToggleTwice | src/components/AddVisitModal.tsx:45-51 | Toggling an absent service twice restores the list; toggling a present one twice moves it to the end. |
| AddVisitForm.WithoutLast | src/components/AddVisitModal.tsx:47-49 | Removing a service just appended to a list that lacked it restores the list. |
| AddVisitForm.NewCustomerVisitOrphaned | src/components/AddVisitModal.tsx:64-89 | When the submit creates a customer and no older customer has the visit's customer id, the visit changes no customer, whatever clock reading the visit carries, even the new customer's own id. The new customer keeps zero visits. |
| AddVisitForm.VisitForm.constructor | src/components/AddVisitModal.tsx:19-25 | Every field starts empty and the new-customer flag is false. |
| AddVisitForm.VisitForm.HandlePhoneChange | src/components/AddVisitModal.tsx:31-43 | The phone is set; a known phone prefills name and email (email or "") and clears the flag; an unknown one clears name and email and sets the flag; other fields are kept. |
| AddVisitForm.VisitForm.HandleServiceToggle | src/components/AddVisitModal.tsx:45-51 | The selected services become the toggle of the old list. |
| AddVisitForm.VisitForm.SetCustomerName | src/components/AddVisitModal.tsx:149 | The name field becomes the typed text; nothing else changes. |
| AddVisitForm.VisitForm.SetEmail | src/components/AddVisitModal.tsx:161 | The email field becomes the typed text; nothing else changes. |
| AddVisitForm.VisitForm.SetBarber | src/components/AddVisitModal.tsx:197 | The selected barber becomes the chosen one; nothing else changes. |
| AddVisitForm.VisitForm.SetAmount | src/components/AddVisitModal.tsx:218 | The amount field becomes the typed text; nothing else changes. |
| AddVisitForm.VisitForm.Reset | src/components/AddVisitModal.tsx:91-98 | All fields are empty and the flag is false. |
| AddVisitForm.VisitForm.HandleSubmit | src/components/AddVisitModal.tsx:53-101 | An incomplete form changes nothing. Otherwise a flagged new customer with an unknown phone is added. With a non-empty target id, the visit (points for the amount, services and barber passed through) is appended, the customer is looked up in the list as it was before the add, and the form is cleared. So a newly created customer is never credited unless an older customer holds the guessed id. With no id, only the customer add happens and the form is untouched. Only the store's customers and visits may change, never its salon or loading flag. Tier consistency is preserved. |
| Analytics.RevenueAppend | src/pages/Analytics.tsx:37 | Revenue of two visit lists joined is the sum of their revenues. |
| Analytics.RevenueBounds | src/pages/Analytics.tsx:37 | With non-negative amounts, revenue is non-negative and at least every single amount. |
| Analytics.AverageVisitValue | src/pages/Analytics.tsx:38 | 0 with no visits; otherwise the average times the visit count is the revenue. |
| Analytics.CustomerIdsBound | src/pages/Analytics.tsx:39-40 | There are no more distinct customer ids than visits. |
| Analytics.UniqueCustomers | src/pages/Analytics.tsx:39-40 | The distinct-customer count is at most the visit count. |
| Analytics.Bump | src/pages/Analytics.tsx:44 | Adding w under key k raises k's entry by w (from 0 when absent) and leaves every other key's entry as it was; the total rises by w, the key set gains k, keys stay distinct. |
| Analytics.LookupCons | src/pages/Analytics.tsx:44 | Looking a key up in a tally with a leading entry gives that entry's value for its own key and the rest's value for any other key. |
| Analytics.TallyBy | src/pages/Analytics.tsx:43-46 | The keyed tally has distinct keys, and each key's entry is the summed weight of the elements with that key. |
| Analytics.BumpEach | src/pages/Analytics.tsx:50-52 | Counting a visit's services raises each service's entry by the number of times the visit lists it; the total rises by the number of services; keys stay distinct. |
| Analytics.ServiceStats | src/pages/Analytics.tsx:49-54 | Each service's entry is the number of times it is listed over all visits; keys are distinct. |
| Analytics.TierCountsTotal | src/pages/Analytics.tsx:43-46 | The tier counts sum to the number of customers. |
| Analytics.ServiceStatsTotal | src/pages/Analytics.tsx:49-54 | The service counts sum to the number of service entries over all visits. |
| Analytics.BarberStatsTotal | src/pages/Analytics.tsx:61-64 | The per-barber amounts sum to the total revenue. |
| Analytics.TierCountsLookup | src/pages/Analytics.tsx:43-46 | The count for a tier is the number of customers holding it (0 when there are none). |
| Analytics.TierWeight | src/pages/Analytics.tsx:43-46 | Counting one per customer under its tier gives, for each tier, the number of customers holding it. |
| Analytics.BarberStatsLookup | src/pages/Analytics.tsx:61-64 | The amount for a barber is the revenue of the visits that barber served. |
| Analytics.BarberWeight | src/pages/Analytics.tsx:61-64 | Summing amounts under their barber gives, for each barber, the revenue of that barber's visits. |
| Analytics.LookupEntry | src/pages/Analytics.tsx:56-57 | In a tally with distinct keys, every entry listed by `Object.entries` holds its key's value. |
| Analytics.TopFiveRanked | src/pages/Analytics.tsx:56-58 | The top list has at most 5 entries (exactly 5 when the tally has 5), in non-increasing value order, each from the tally, and no entry left out has a larger value than one listed. |
| Analytics.TopFiguresAreTallied | src/pages/Analytics.tsx:49-68 | Each top service is shown with the number of times it was performed, and each top barber with the revenue of that barber's visits. |
| Analytics.Compute | src/pages/Analytics.tsx:37-68 | The visit count is the number of visits and the revenue their summed amounts; the average times the visit count is the revenue (zero revenue and average with no visits); distinct customers never exceed visits; tier counts sum to the customers; both top lists have at most 5 entries. |
| Analytics.ComputeFigures | src/pages/Analytics.tsx:42-68 | In a computed report, each tier's count is the number of customers holding it, each listed top service carries the number of times it was performed, and each listed top barber carries the revenue of that barber's visits. |
| Ranking.Insert | src/pages/Analytics.tsx:57 | Inserting adds exactly that element to the multiset. |
| Ranking.InsertSorted | src/pages/Analytics.tsx:57 | Inserting into a descending list keeps it descending. |
| Ranking.SortDesc | src/pages/Analytics.tsx:56-58 | The sort result is a permutation of the input in non-increasing key order, and elements with equal keys keep their input order (stable, as `Array.prototype.sort` is). |
| Ranking.WithKeyAppend | src/pages/Analytics.tsx:57 | The elements with a given key in a joined list are those of the first part followed by those of the second. |
| Ranking.WithKeyMembers | src/pages/Analytics.tsx:57 | Every element picked out by key comes from the list and has that key. |
| Ranking.InsertTies | src/pages/Analytics.tsx:57 | Inserting an element puts it ahead of every element with the same key and leaves the order among other keys unchanged. |
| Ranking.TiesDetermineRanking | src/pages/Dashboard.tsx:44-45 | Two descending lists with the same elements and the same order among equal keys are equal: a stable descending sort has exactly one result. |
| Ranking.SwapTies | src/pages/Dashboard.tsx:44-45 | Swapping two neighbours with different keys keeps the order among equal keys. |
| Ranking.SwapDown | src/pages/Dashboard.tsx:44-45 | Swapping two neighbours with different keys changes exactly those two cells, keeps the multiset and keeps the order among equal keys. |
| Ranking.SiftDown | src/pages/Dashboard.tsx:44-45 | Moving the next element into a sorted prefix leaves the prefix one longer and sorted, keeps the multiset and keeps the order among equal keys. |
| Ranking.SortDescInPlace | src/pages/Dashboard.tsx:44-50 | The in-place sort leaves the array in non-increasing key order, a permutation of its old contents with equal keys in their old order, and therefore equal to the functional sort of the old contents. |
| Dashboard.RevenueRemoveAt | src/pages/Dashboard.tsx:38 | Revenue is the revenue without one visit plus that visit's amount. |
| Dashboard.RevenuePermutation | src/pages/Dashboard.tsx:38-50 | Two lists with the same multiset of visits have the same revenue, so sorting never changes it. |
| Dashboard.PermutationKeepsTiers | src/pages/Dashboard.tsx:44-45 | Reordering the customers keeps tier consistency. |
| Dashboard.SortedCopy | src/pages/Dashboard.tsx:44-50 | Sorting a list through an array gives the stable descending sort: a permutation in non-increasing key order that keeps equal keys in their old order. |
| Dashboard.Render | src/pages/Dashboard.tsx:36-55 | No salon gives nothing and the store is untouched. With a salon, both shared lists are replaced in place by their stable sorts, by spend and by date; the top lists are their first five; revenue and average are over the visits; today's count filters the visits before sorting; the tier counts are the tally of the customers, so each tier's count is the number of customers holding it, and they sum to the customers; tier consistency is kept. |
| Dashboard.TopCustomersRanked | src/pages/Dashboard.tsx:44-46 | The top customers number at most 5, are in non-increasing spend, are customers, and no customer left out spent more than one listed. |
| CustomerDetails.CustomerVisits | src/components/CustomerDetailsModal.tsx:32-34 | Exactly the visits with the selected id (a permutation of their filter), newest first, visits at the same time in store order. |
| CustomerDetails.NextTier | src/components/CustomerDetailsModal.tsx:43-47 | No next tier exactly for Platinum; otherwise the next tier is one rank up. |
| CustomerDetails.ThresholdIsNextTierEntry | src/components/CustomerDetailsModal.tsx:37 | Each threshold (5, 10, 20) is a visit count at which the tier rule yields the next tier, and below it the rule yields a lower one. |
| CustomerDetails.ProgressLabelMatchesThreshold | src/components/CustomerDetailsModal.tsx:136 | The goal shown in the progress label equals the threshold used for the bar. |
| CustomerDetails.Progress | src/components/CustomerDetailsModal.tsx:36-41 | Progress never exceeds 100, is 100 for Platinum, is 100 exactly when visits reach the threshold, and is visits / threshold × 100 below it. |
| CustomerDetails.VisitsToReward | src/components/CustomerDetailsModal.tsx:120 | Visits plus the shown number equal the next reward mark (no clamping); it is at most 0 exactly when the reward is reached. |
| CustomerDetails.Show | src/components/CustomerDetailsModal.tsx:27-47 | Nothing is shown for a missing or empty id, nor exactly when no customer has the id; otherwise the customer `find` returns for the id, its visits, at most 5 recent ones, and its next tier, progress and visits to reward as those functions define them. |
| CustomerDetails.ShowsFirstMatch | src/components/CustomerDetailsModal.tsx:29 | When several customers share the id, the one shown is the first of them in list order. |
| SmsCampaign.TierAudience | src/components/SMSCampaignModal.tsx:47-50 | A tier audience holds exactly the customers with that tier. |
| SmsCampaign.Audience | src/components/SMSCampaignModal.tsx:45-57 | Only the six known keys select an audience; "all" is every customer; every audience draws from the customers. |
| SmsCampaign.TierAudiencesPartition | src/components/SMSCampaignModal.tsx:46-50 | The four tier audiences' sizes sum to the size of the "all" audience. |
| SmsCampaign.TierAudienceCons | src/components/SMSCampaignModal.tsx:47-50 | A tier audience counts the first customer exactly when it has that tier. |
| SmsCampaign.TargetCount | src/components/SMSCampaignModal.tsx:68-71 | 0 with no selection or an unknown key, otherwise the audience size; never more than the customers. |
| SmsCampaign.EstimatedCost | src/components/SMSCampaignModal.tsx:73 | The cost is the target count times 1. |
| SmsCampaign.KindOf | src/components/SMSCampaignModal.tsx:26-43 | A recognised campaign type is the key of its kind; an unrecognised one is the key of none. |
| SmsCampaign.KindOfKey | src/components/SMSCampaignModal.tsx:26-43 | Each template kind's key is recognised as that kind. |
| SmsCampaign.CampaignForm.constructor | src/components/SMSCampaignModal.tsx:19-22 | All four fields start empty. |
| SmsCampaign.CampaignForm.HandleCampaignTypeChange | src/components/SMSCampaignModal.tsx:59-66 | The type is always recorded; a known type sets subject and message from its template; an unknown one leaves them. |
| SmsCampaign.CampaignForm.SetTargetAudience | src/components/SMSCampaignModal.tsx:116 | The audience becomes the chosen key; nothing else changes. |
| SmsCampaign.CampaignForm.SetSubject | src/components/SMSCampaignModal.tsx:137 | The subject becomes the typed text; nothing else changes. |
| SmsCampaign.CampaignForm.SetMessage | src/components/SMSCampaignModal.tsx:148 | The message becomes the typed text; nothing else changes. |
| SmsCampaign.CampaignForm.HandleSend | src/components/SMSCampaignModal.tsx:75-84 | Refused exactly when type, audience or message is empty; otherwise sent to the target count at cost count × 1. |
| Settings.TrimStart | src/pages/Settings.tsx:64 | The result is a suffix starting with a non-space, and everything dropped is whitespace. |
| Settings.TrimEnd | src/pages/Settings.tsx:64 | The result is a prefix ending with a non-space, and everything dropped is whitespace. |
| Settings.Trim | src/pages/Settings.tsx:64 | The result is the stretch of the input left after dropping the whitespace at both ends: only whitespace precedes and follows it. It is empty exactly when the input is all whitespace, otherwise it starts and ends with non-whitespace. |
| Settings.TrimSpan | src/pages/Settings.tsx:64 | Trimming the end of the start-trimmed text leaves a stretch of the original with only whitespace around it, empty exactly when the original is all whitespace. |
| Settings.TrimStartThenEnd | src/pages/Settings.tsx:64 | Trimming the start and then the end of a text leaves the stretch of it with only whitespace around it, empty exactly when the text is all whitespace. |
| Settings.TrimIdempotent | src/pages/Settings.tsx:64 | Trimming twice is trimming once. |
| Settings.AddEntry | src/pages/Settings.tsx:63-68 | A non-blank, unlisted trimmed input is appended and the input cleared; otherwise list and input are unchanged; a duplicate-free list stays so; no other entry appears. |
| Settings.AddEntryTwice | src/pages/Settings.tsx:63-68 | Adding the same input twice gives the same list as once. |
| Settings.SaveProfileTouchesOnlyProfile | src/pages/Settings.tsx:55-61 | Saving the profile changes only salon name, phone and address of the user. |
| ArrayOps.Without | src/pages/Settings.tsx:70-72 | Every occurrence of the value is gone, all other values stay, a list without it is unchanged, and one occurrence in a duplicate-free list shortens it by one. |
| ArrayOps.WithoutIsFilter | src/pages/Settings.tsx:70-72 | Removing a value is filtering by "not equal to it", so the remaining entries keep their order. |
| Settings.SettingsForm.constructor | src/pages/Settings.tsx:31-37 | The fields start from the user's profile and the salon's lists, or empty when absent. |
| Settings.SettingsForm.SetSalonName | src/pages/Settings.tsx:144 | The salon name field becomes the typed text; nothing else changes. |
| Settings.SettingsForm.SetPhone | src/pages/Settings.tsx:153 | The phone field becomes the typed text; nothing else changes. |
| Settings.SettingsForm.SetAddress | src/pages/Settings.tsx:164 | The address field becomes the typed text; nothing else changes. |
| Settings.SettingsForm.SetNewService | src/pages/Settings.tsx:176 | The new-service input becomes the typed text; nothing else changes. |
| Settings.SettingsForm.SetNewBarber | src/pages/Settings.tsx:202 | The new-barber input becomes the typed text; nothing else changes. |
| Settings.SettingsForm.AddService | src/pages/Settings.tsx:63-68 | The services and the input become the add-entry result, keeping the list duplicate-free. |
| Settings.SettingsForm.RemoveService | src/pages/Settings.tsx:70-72 | The services lose every entry equal to the argument. |
| Settings.SettingsForm.AddBarber | src/pages/Settings.tsx:74-79 | The same rule as adding a service, on the barbers. |
| Settings.SettingsForm.RemoveBarber | src/pages/Settings.tsx:81-83 | The barbers lose every entry equal to the argument. |
| Settings.SettingsForm.HandleSaveProfile | src/pages/Settings.tsx:55-61 | The signed-in user becomes a new user object, merged with the three profile fields; with no user nothing changes. The edited lists go nowhere. |
| Settings.SettingsForm.HandleSaveProfileAndReload | src/contexts/SalonContext.tsx:86-249 | Saving with a user re-runs the salon load, because it depends on `user`. The salon then has the edited name, phone and address but the default services and barbers. Customers and visits go back to the seed lists, dropping everything recorded since sign-in. Without a user the store is untouched. |
| ScanQr.TierColorDefault | src/pages/ScanQR.tsx:42-49 | Any string other than Platinum, Gold or Silver gets exactly Bronze's colour. |
| ScanQr.TierColorsDistinct | src/pages/ScanQR.tsx:42-49 | The four tiers get four different colours. |
| ScanQr.RewardDueWhenNoVisitsRemain | src/pages/ScanQR.tsx:158 | The reward banner shows exactly when the details view's visits-to-reward is at most 0. |
| ScanQr.CheckIn.constructor | src/pages/ScanQR.tsx:22-24 | No phone, no customer, not checked in. |
| ScanQr.CheckIn.SetPhone | src/pages/ScanQR.tsx:90 | The phone field becomes the typed text; nothing else changes. |
| ScanQr.CheckIn.HandlePhoneSubmit | src/pages/ScanQR.tsx:31-40 | The customer becomes the phone lookup result, found or not; check-in becomes true on a find and otherwise keeps its value. |
| ScanQr.CheckedInAfter | src/pages/ScanQR.tsx:24-40 | Over any series of submits, check-in is never cleared, and it holds exactly when it held before or some submitted phone was found. |
| ArrayOps.Find | src/contexts/SalonContext.tsx:308 | `find` returns nothing exactly when no element satisfies the test; what it returns is an element that does. |
| ArrayOps.FindFirst | src/contexts/SalonContext.tsx:308 | `find` returns the first element in order that satisfies the test. |
| ArrayOps.Filter | src/components/SMSCampaignModal.tsx:47-50 | `filter` keeps exactly the elements satisfying the test, with their multiplicities, and is never longer. |
| ArrayOps.FilterAppend | src/components/SMSCampaignModal.tsx:47-50 | Filtering a joined list is joining the filtered parts, so `filter` keeps order. |
| ArrayOps.FilterLast | src/components/SMSCampaignModal.tsx:47-50 | Filtering a list is filtering all but its last element, then keeping the last one if it passes. |
| ArrayOps.FilterCons | src/components/SMSCampaignModal.tsx:47-50 | Filtering a list keeps its first element exactly when it passes, ahead of the filtered rest. |
| ArrayOps.AppendFresh | src/pages/Settings.tsx:63-68 | Appending a value not yet listed keeps a duplicate-free list duplicate-free. |
| ArrayOps.Take | src/pages/Dashboard.tsx:44-50 | `slice(0, n)` has min(n, length) elements, the first ones of the list. |

## Left out

- Rendering, routing, dialogs, icons and styling are not modelled; they only display values.
- Toasts, `alert` and `onClose` are not modelled; they are user interface output.
- `localStorage` is not modelled; it is browser I/O. The restored session is a constructor parameter instead, and the JSON parse of it is not modelled.
- Simulated `setTimeout` delays and promise plumbing are not modelled; each store operation is one atomic step.
- React state batching is not modelled beyond one point: `addVisit` looks its customer up in the `customers` list its closure captured. That list is passed to `AddVisit` explicitly, and the add-visit form passes the list from before its `addCustomer`.
- `Date.now()` and `new Date()` are not modelled; their readings are parameters.
- Date parsing and formatting are not modelled. The model uses a `dateKey` order, an `isToday` predicate and a `lapsed` predicate for the 30-day inactive audience.
- `parseInt` of the amount (including NaN) is not modelled; the amount is an integer parameter.
- The QR code URL and the `qrCode` field are not modelled; they are external I/O.
- The settings page's tab switch and its three notification switches are not modelled; they are display state that nothing reads.
- The profile dialog (`src/components/ProfileModal.tsx`) is not modelled. Its save also goes through `updateProfile` and so causes the same salon reload as the settings save.
- The `if (!salon)` guards of the add-visit form, analytics, SMS campaign, settings and QR check-in pages (and the settings `!user` guard) are not modelled. Those views render nothing. The forms take the salon's values as parameters. The dashboard's guard is modelled.
- Floating-point rounding is not modelled: averages and progress are exact reals. The display rounding of the average visit value (`Math.round`) is left out. The analytics page's tier shares are fixed constants and are not modelled.
- The analytics page's monthly trend figures are not modelled; they are fixed mock data.
- Lookups of JavaScript prototype keys such as "constructor" in the template and audience tables are not modelled. The select widgets only offer the known keys, so the model treats every other string as unknown.
- JavaScript object key order is not modelled. A tally is an association list in first-insertion order. JavaScript lists integer-like keys first; no such key arises from tier, service or barber names.
- Analytics.Compute: the contract states the headline figures, the bounds and the sums; what each tier count and top-list entry holds is stated about `Compute` by `Analytics.ComputeFigures`, and which entries make the top five by `Analytics.TopFiveRanked`.
- Dashboard.Render: todayVisits counts the visits whose date satisfies the `isToday` parameter, which stands for comparing `toDateString()` with the current day.
- SmsCampaign.CampaignForm.HandleSend: sending is a stub in the source (an alert); the model returns the recipient count and cost instead.
- Customer spend, points and visit counts are unbounded integers. JavaScript numbers are floating point, but the values stay far below where rounding could occur.
