# Rental marketplace client: decision rules of the React components

This project models, in Dafny, the deterministic rules inside the React
client of a property-rental marketplace. Owners list properties and decide on
rental applications. Tenants browse properties, apply, and follow their
applications and payments. Every business rule of the marketplace itself
(application state machine, leases, invoices, overdue computation,
authorisation) runs on a server at `localhost:5162`, and its code is not part
of this model. What is modelled is what the components decide on their own:

- the session checks on a decoded JSON Web Token payload (the `exp` claim of
  section 4.1.4 of RFC 7519, the `sub` claim of section 4.1.2, and the
  server's own `ownerId`, `tenantId` and nameidentifier claims);
- the add and edit property forms: field validation, per-field error
  clearing, image preview, and the request each submit builds;
- the tenant's property search filter, whose handlers the page defines but
  does not wire to any input (see "## Left out");
- the owner's status update of an application, the status badges, and the
  rule that only pending applications offer Accept and Reject;
- the tenant's application list with its status icon, label and lease link;
- response unwrapping (`$values`), id and text fallbacks, the "Paid" tag on
  payments, image address resolution, the dashboard's three stats, and the
  owner profile editor's checks.

Layout: one module per component (`AddProperty`, `UpdateProperty`,
`PropertySearch`, `RentalApplications`, `MyApplications`, `MyProperties`,
`Payments`, `PropertyCard`, `DashboardHome`, `TenantLayout`, `EditProfile`)
and five shared modules. `Js` holds JavaScript string truthiness, `||`
chains, `trim`, ASCII case mapping, `includes` and `startsWith`. `Claims`
holds the decoded payload. `Api` holds response shapes and the three
unwrapping rules. `PropertyForm` holds the draft and validation shared by
the two property forms. `Screens` holds the loading/error/empty/list
rendering order.

Components that keep state between events (the two property forms, the
search, the owner's application list, the dashboard home, the layout, the
profile editor) are classes whose fields are the component's `useState`
variables. Their handlers are methods that state the whole new state.
Components whose only state is a one-shot fetch result (tenant
applications, owner properties, payments, the property card) are functions
from the response to what is shown.

Conventions: `""` stands for a falsy `null` or `undefined` string where the
difference cannot be observed, and `Option` is used where it can be observed
(optional chaining, template literals, `!== undefined`). Decoding a token,
`parseFloat`, `parseInt` and the clock are inputs: a `Decoded` value, an
`Option<real>` rent, an `Option<int>` owner id and an integer `now` in
milliseconds. A request's result is an `Outcome`: a 2xx response with its
body, another status with the server's message, or no response.

## Model

| member | source | states |
|---|---|---|
| AddProperty.CheckSession | src/components/OwnerDashboard/AddProperty.js:33-57 | a missing token is refused before decoding; a present token that does not decode is refused as undecodable; a decoded token passes iff its `exp` has not passed and it has a nameidentifier or `ownerId` claim; expiry is checked before the claims |
| AddProperty.NoExpOnlyClaimsMatter | src/components/OwnerDashboard/AddProperty.js:43-49 | a payload with no or falsy `exp` is never refused for expiry, only for a missing owner claim |
| AddProperty.OwnerIdOf | src/components/OwnerDashboard/AddProperty.js:99 | the owner id sent is the nameidentifier claim when truthy, else `ownerId`; it is truthy iff one of them is |
| AddProperty.PassedSessionHasOwner | src/components/OwnerDashboard/AddProperty.js:47-51 | a session that passed on mount always has a truthy owner id to send |
| AddProperty.AddPropertyForm.constructor | src/components/OwnerDashboard/AddProperty.js:17-30 | the initial state: the empty draft (available, every text empty), no errors, status checking, no preview |
| AddProperty.AddPropertyForm.VerifySession | src/components/OwnerDashboard/AddProperty.js:32-60 | authStatus becomes authenticated iff the check passes; every refusal except a missing token removes the stored token |
| AddProperty.AddPropertyForm.HandleChange | src/components/OwnerDashboard/AddProperty.js:62-78 | only the named field changes (checked for the checkbox, value otherwise), only its error is cleared, and the preview is the new image path or None when it is cleared |
| AddProperty.AddPropertyForm.HandleSubmit | src/components/OwnerDashboard/AddProperty.js:80-127 | errors become exactly the errors of the draft; any error, a missing token or an undecodable token means no POST; the POST body is the draft with the parsed rent and the owner claim; a 401 removes the token |
| UpdateProperty.SessionStatus | src/components/OwnerDashboard/UpdateProperty.js:28-45 | the edit form accepts exactly the present tokens that decode, with no expiry or claim check |
| UpdateProperty.LaxerThanAddForm | src/components/OwnerDashboard/UpdateProperty.js:34-40 | an expired token, or one naming no owner, is refused by the add form and accepted by the edit form |
| UpdateProperty.AddSessionImpliesUpdateSession | src/components/OwnerDashboard/UpdateProperty.js:29-40 | every session the add form accepts, the edit form accepts |
| UpdateProperty.MergeOwner | src/components/OwnerDashboard/UpdateProperty.js:54-57 | the merged owner id is the earlier one when truthy, else the fetched one |
| UpdateProperty.UpdatePropertyForm.constructor | src/components/OwnerDashboard/UpdateProperty.js:10-25 | the initial state: the empty draft, a falsy owner id, no other keys, no errors, status checking, no preview |
| UpdateProperty.UpdatePropertyForm.VerifySession | src/components/OwnerDashboard/UpdateProperty.js:28-45 | a missing token fails; an undecodable token fails and is removed; a decodable one authenticates and sets the owner id parsed from the nameidentifier claim |
| UpdateProperty.UpdatePropertyForm.FetchPropertyDetails | src/components/OwnerDashboard/UpdateProperty.js:47-62 | on success the form is the fetched record, every other key of it (`propertyID` among them) included and none of the earlier form's kept, with the merged owner id, and the preview is its image path; any failure sets authStatus to failed and changes nothing else |
| UpdateProperty.UpdatePropertyForm.HandleChange | src/components/OwnerDashboard/UpdateProperty.js:70-84 | only the named field changes, only its error is cleared, and any image path change, even to empty, becomes the preview |
| UpdateProperty.UpdatePropertyForm.HandleSubmit | src/components/OwnerDashboard/UpdateProperty.js:86-113 | errors become exactly the draft's errors; any error blocks the PUT; the PUT carries the whole form, the fetched record's other keys included; success iff the status is 200 or 204 |
| UpdateProperty.FetchedRecordSentBack | src/components/OwnerDashboard/UpdateProperty.js:54-103 | a fetched record submitted unedited is PUT back whole: its fields, its owner id and its other keys, `propertyID` included |
| UpdateProperty.OtherSuccessStatusesNotReported | src/components/OwnerDashboard/UpdateProperty.js:110 | a 2xx answer other than 200 and 204 (201 Created, say) is not treated as a successful update |
| PropertyForm.Set | src/components/OwnerDashboard/AddProperty.js:64-67 | the named field takes the event's value and every other field keeps its value |
| PropertyForm.DraftExtensional | src/components/OwnerDashboard/UpdateProperty.js:72-75 | drafts agreeing on every field are equal, so the two facts about `Set` fix its result |
| PropertyForm.CollectErrors | src/components/OwnerDashboard/AddProperty.js:82-89 | the new errors have an entry exactly for the blank name, address, country and state and for an empty or non-positive rent, each with its message |
| PropertyForm.OnlyCheckedFieldsMatter | src/components/OwnerDashboard/UpdateProperty.js:90-94 | no field other than the five checked ones affects validation |
| PropertyForm.TextFieldJudgement | src/components/OwnerDashboard/AddProperty.js:83-86 | a text field is invalid exactly when `trim` leaves it empty |
| PropertyForm.EmptyDraftFailsEverywhere | src/components/OwnerDashboard/AddProperty.js:17-26 | the untouched form fails on the five checked fields and no other |
| PropertyForm.RentAccepted | src/components/OwnerDashboard/AddProperty.js:87 | the rent passes iff its text is non-empty and it parses positive or not at all |
| Js.TrimEmptyIff | src/components/OwnerDashboard/UpdateProperty.js:90-93 | `s.trim()` is empty exactly when every character is white space |
| Js.FirstTruthyIsFirst | src/components/TenantDashboard/DashboardHome.js:18 | an `\|\|` chain yields an operand all of whose predecessors are falsy, truthy unless it is the last |
| Claims.NoExpNeverExpires | src/components/OwnerDashboard/AddProperty.js:43 | a token with no `exp`, or `exp` 0, is never expired however late the clock |
| Claims.ExpiredStaysExpired | src/components/OwnerDashboard/AddProperty.js:43 | once `exp < now / 1000` holds it holds at every later time |
| Claims.FirstClaimIsFirst | src/components/TenantDashboard/TenantLayout.js:19 | a claim chain yields one named claim, every earlier claim being falsy |
| PropertySearch.FilterMembers | src/components/TenantDashboard/PropertySearch.js:59-64 | the result holds only listings of the input that all three criteria match, and every such listing |
| PropertySearch.FilterIsSubsequence | src/components/TenantDashboard/PropertySearch.js:59 | the result is an order-preserving subsequence of the loaded list |
| PropertySearch.FilterAppend | src/components/TenantDashboard/PropertySearch.js:59-65 | filtering a concatenation is concatenating the filtered parts, so relative order is kept |
| PropertySearch.FilterIdempotent | src/components/TenantDashboard/PropertySearch.js:59-65 | filtering the result again with the same criteria changes nothing |
| PropertySearch.EmptyCriteriaKeepAll | src/components/TenantDashboard/PropertySearch.js:60-62 | with every criterion empty the whole list is returned |
| PropertySearch.MatchIgnoresCriterionCase | src/components/TenantDashboard/PropertySearch.js:60 | the letter case of the typed criterion does not matter |
| PropertySearch.MatchIgnoresFieldCase | src/components/TenantDashboard/PropertySearch.js:61 | the letter case of the listing's field does not matter |
| PropertySearch.SubstringMatches | src/components/TenantDashboard/PropertySearch.js:62 | a field containing the criterion anywhere matches |
| PropertySearch.StateSearchExample | src/components/TenantDashboard/PropertySearch.js:61-63 | searching state "TX" over "TX", "tx", "CA" keeps the first two |
| PropertySearch.PropertySearchView.constructor | src/components/TenantDashboard/PropertySearch.js:9-17 | the initial state: no listings, empty criteria, loading, no error |
| PropertySearch.PropertySearchView.Load | src/components/TenantDashboard/PropertySearch.js:19-47 | a body whose `$values` is an array fills both lists; any other body, or a failed request, sets its error and leaves the lists |
| PropertySearch.PropertySearchView.HandleInputChange | src/components/TenantDashboard/PropertySearch.js:49-55 | only the named criterion changes |
| PropertySearch.PropertySearchView.HandleSearch | src/components/TenantDashboard/PropertySearch.js:57-66 | the shown list is the loaded list filtered by the criteria, independent of the previous result; the loaded list is unchanged |
| RentalApplications.ClassOf | src/components/OwnerDashboard/RentalApplications.js:115-141 | pending, approved/accepted and rejected/declined (any case) get their badge; every other status, and a missing one, is unknown |
| RentalApplications.ActionsIffPendingBadge | src/components/OwnerDashboard/RentalApplications.js:176 | the Accept and Reject buttons show exactly when the badge is pending |
| RentalApplications.WithStatus | src/components/OwnerDashboard/RentalApplications.js:98-104 | the entries whose id equals the given id take the new status; every other entry, the length and the order are kept |
| RentalApplications.DecidedOffersNoActions | src/components/OwnerDashboard/RentalApplications.js:176-185 | after Accepted or Rejected is applied, that entry offers no buttons and shows the decision's badge; other entries keep their buttons |
| RentalApplications.WithStatusIdempotent | src/components/OwnerDashboard/RentalApplications.js:98-104 | applying the same update twice is applying it once |
| RentalApplications.OwnerApplicationsView.constructor | src/components/OwnerDashboard/RentalApplications.js:9-13 | the initial state: no applications, loading, no error |
| RentalApplications.OwnerApplicationsView.Load | src/components/OwnerDashboard/RentalApplications.js:21-59 | no token means no request and the unauthorised error; otherwise the unwrapped list, or the load error for a null body or a failed request |
| RentalApplications.OwnerApplicationsView.HandleStatusUpdate | src/components/OwnerDashboard/RentalApplications.js:65-111 | a successful PUT applies the update to the list; a failed one leaves it |
| RentalApplications.OwnerApplicationsView.Rendered | src/components/OwnerDashboard/RentalApplications.js:147-190 | the cards show only after loading without error, and then all of them |
| MyApplications.IconOf | src/components/TenantDashboard/MyApplications.js:40-47 | approved gets the check, rejected the cross, everything else the clock |
| MyApplications.Label | src/components/TenantDashboard/MyApplications.js:73 | the first character upper-cased followed by the rest; "NaN" for a missing status |
| MyApplications.LabelOfLowerStatus | src/components/TenantDashboard/MyApplications.js:73 | a lower-case status is shown with only its first letter capitalised |
| MyApplications.LeasePath | src/components/TenantDashboard/MyApplications.js:87 | the lease link is `/tenant/lease/` followed by the application id |
| MyApplications.LeaseLinkIffCheckIcon | src/components/TenantDashboard/MyApplications.js:86 | the lease link shows exactly for the approved icon |
| MyApplications.AcceptedNeverReachesLease | src/components/OwnerDashboard/RentalApplications.js:178 | the owner's "Accepted" is approved on the owner badge but pending, with no lease link, for the tenant |
| MyApplications.RejectedAgrees | src/components/OwnerDashboard/RentalApplications.js:181 | the owner's "Rejected" is rejected in both views |
| MyApplications.Load | src/components/TenantDashboard/MyApplications.js:11-35 | an ok body gives `$values` if present, else the body as received (an object without `$values` is kept, though not a list); a non-ok response shows its text and an empty list; a request that throws, or a `null` body, shows "Error fetching applications." |
| MyApplications.Rendered | src/components/TenantDashboard/MyApplications.js:49-65 | loading, then error, then empty message, then the list; a non-array body makes rendering throw |
| MyProperties.Load | src/components/OwnerDashboard/MyProperties.js:13-30 | a response gives its unwrapped list and no error; a failure gives [] and an error |
| MyProperties.ItemId | src/components/OwnerDashboard/MyProperties.js:61 | the id is `propertyID` when truthy, else `id` |
| MyProperties.PathsShareTheId | src/components/OwnerDashboard/MyProperties.js:47-54 | edit and delete links end in the same id, never coincide, and identify cards alike |
| MyProperties.TextOrNotSpecified | src/components/OwnerDashboard/MyProperties.js:74-77 | a falsy address, state or country shows "Not specified", a truthy one itself |
| MyProperties.RentShown | src/components/OwnerDashboard/MyProperties.js:80 | a missing or zero rent shows "Not specified" |
| MyProperties.CardOf | src/components/OwnerDashboard/MyProperties.js:61-86 | the key, the edit link and the delete link use the same id |
| MyProperties.FailedLoadShowsError | src/components/OwnerDashboard/MyProperties.js:23-45 | after a failed load the page shows the error, never a grid |
| Screens.ListShownIff | src/components/OwnerDashboard/MyProperties.js:35-45 | the list shows iff not loading, no error and not empty, and then whole |
| Payments.TagPaid | src/components/TenantDashboard/Payments.js:25-28 | every row gets status "Paid" with all other fields, the length and the order kept |
| Payments.TagPaidAppend | src/components/TenantDashboard/Payments.js:25-29 | tagging commutes with concatenation: a history tagged in parts reads as tagged whole |
| Payments.TagPaidIdempotent | src/components/TenantDashboard/Payments.js:25-28 | tagging an already tagged history changes nothing |
| Payments.ErrorText | src/components/TenantDashboard/Payments.js:39 | the server's message when present, else "Failed to fetch data." |
| Payments.Load | src/components/TenantDashboard/Payments.js:13-43 | a history with `$values` is tagged, then the notifications are the body received, or on their failure its message is the error; an ok history without `$values` gives "Failed to fetch data."; a failed history request gives its message; in every failure the notifications stay empty |
| Payments.NotesShown | src/components/TenantDashboard/Payments.js:90-105 | the list shows iff the notifications are a non-empty array, and then it is that array; `null` throws |
| Payments.NullDaysLateShown | src/components/TenantDashboard/Payments.js:97-99 | the Days Late line is hidden only for a missing field: `null` and a number both show it |
| Payments.Rendered | src/components/TenantDashboard/Payments.js:48-105 | loading before error; otherwise the history and notifications page, with the "No payment history" message exactly for an empty history and the notifications as `NotesShown` gives them |
| Payments.ShownRowsArePaid | src/components/TenantDashboard/Payments.js:72-79 | every row the page shows says "Paid" |
| PropertyCard.ImageSrc | src/components/shared/PropertyCard.js:42 | absent or empty gives the default; a path starting with "http" is kept; anything else is prefixed with the server root |
| PropertyCard.ImageSrcResolves | src/components/shared/PropertyCard.js:42 | the address is the default or starts with "http", and resolving it again keeps it |
| PropertyCard.RelativePathKept | src/components/shared/PropertyCard.js:42 | a relative path survives as the suffix after the server root |
| PropertyCard.CardOf | src/components/shared/PropertyCard.js:38-55 | id lines iff tenant view; Apply button iff asked for, passing `PropertyID` |
| PropertyCard.ApplyPassesUndefined | src/components/shared/PropertyCard.js:48-50 | a listing with only `propertyID` shows its id but the button passes undefined |
| DashboardHome.TenantIdOf | src/components/TenantDashboard/DashboardHome.js:18 | the value of one of `tenantId`, `sub`, `userId`, nameidentifier, every earlier one being falsy: the first truthy, or the last when none is; truthy iff one of them is |
| DashboardHome.TenantNameOf | src/components/TenantDashboard/DashboardHome.js:20 | `tenantName` when truthy, else `name` |
| DashboardHome.StatsFor | src/components/TenantDashboard/DashboardHome.js:35-57 | three stats: the figures with 0, 0, "$0" defaults when ok, "N/A" when not ok, "Error" when the request throws |
| DashboardHome.StatsOutcomesDistinct | src/components/TenantDashboard/DashboardHome.js:35-57 | the three outcomes always show different figures |
| DashboardHome.DashboardHomeView.Effect | src/components/TenantDashboard/DashboardHome.js:13-69 | a missing token redirects; a decode failure removes the token and redirects; stats are requested only for a truthy id held when the run began |
| DashboardHome.DashboardHomeView.constructor | src/components/TenantDashboard/DashboardHome.js:9-11 | the initial state: id and name `null`, no stats |
| DashboardHome.IdShownAfterFirstRun | src/components/TenantDashboard/DashboardHome.js:86 | after a run with a decodable token, "Tenant ID" is shown iff one of the four id claims is truthy |
| DashboardHome.TwoRuns | src/components/TenantDashboard/DashboardHome.js:62-69 | the first run never fetches the stats; the run after the id is set does |
| TenantLayout.TenantIdOf | src/components/TenantDashboard/TenantLayout.js:19 | the value of one of `TenantID`, `sub`, `userId`, nameidentifier, every earlier one being falsy: the first truthy, or the last when none is; truthy iff one of them is |
| TenantLayout.AgreesWithoutTenantClaim | src/components/TenantDashboard/TenantLayout.js:19 | without either spelling of the tenant claim, sidebar and dashboard agree on the id |
| TenantLayout.DisagreesOnSpelling | src/components/TenantDashboard/DashboardHome.js:18 | a token with only `tenantId` gives the dashboard an id and the sidebar none |
| TenantLayout.NameOnlyFromNameClaim | src/components/TenantDashboard/TenantLayout.js:20 | a token with only `tenantName` names the tenant on the dashboard but not in the sidebar |
| TenantLayout.TenantLayoutView.constructor | src/components/TenantDashboard/TenantLayout.js:11-12 | the initial state: id and name `null` |
| TenantLayout.IdShownAfterEffect | src/components/TenantDashboard/TenantLayout.js:38 | after the effect with a decodable token, the sidebar shows an id iff `TenantID`, `sub`, `userId` or the nameidentifier claim is truthy |
| TenantLayout.TenantLayoutView.Effect | src/components/TenantDashboard/TenantLayout.js:14-29 | no token sets nothing and redirects; a decode failure removes the token and redirects; otherwise id from the chain and name from `name` |
| EditProfile.TextOrEmpty | src/components/OwnerDashboard/EditProfile.js:12-13 | a truthy value is kept, anything else is '' |
| EditProfile.EditProfileForm.constructor | src/components/OwnerDashboard/EditProfile.js:11-15 | name from `name`, phone number from `phone`, both defaulting to '', empty password |
| EditProfile.EditProfileForm.HandleChange | src/components/OwnerDashboard/EditProfile.js:18-21 | only the named field changes |
| EditProfile.EditProfileForm.HandleSubmit | src/components/OwnerDashboard/EditProfile.js:23-59 | missing token, decode failure and missing `ownerId` each stop before the request with their error; the request is the owner id and every profile field; only 200 is success |
| EditProfile.NoContentIsFailure | src/components/OwnerDashboard/EditProfile.js:49-54 | a 204 answer is reported as "Failed to update profile" |
| Api.UnwrapsAgreeOnLists | src/components/OwnerDashboard/RentalApplications.js:43 | on a bare array or an object with `$values`, the three unwrapping rules give the same list |
| Api.UnwrapsDisagreeOnOtherShapes | src/components/TenantDashboard/MyApplications.js:25 | on an object without `$values` or `null` the rules part ways |

## Left out

- Network, storage and navigation: axios/fetch calls are replaced by their `Outcome`; `localStorage` removal is a `tokenRemoved` flag; `navigate` is kept only as the tenant views' `redirect` field; `alert`, `console` and `window.confirm` are not modelled.
- Token decoding (`atob`, `JSON.parse`, `jwtDecode`) and the JWS compact split of RFC 7515 section 7.1: the model starts from a `Decoded` value. Claims are strings; a numeric claim is not modelled apart from `exp`.
- `parseFloat`, `parseInt`, `toFixed`, `Date.now` and `toLocaleDateString`: the rent, the parsed owner id and `now` are inputs. Except for the edit form's owner id (`parseInt` of the claim, an `Option<int>` with None for NaN), owner, property and application ids are their text, so an id of 0 (falsy in JavaScript) is not modelled.
- AddProperty.AddPropertyForm.HandleSubmit: sends the owner claim's text as `ownerID`, not its `parseInt`; the alerts and navigation after the POST are not modelled, only the 401 token removal.
- UpdateProperty.UpdatePropertyForm.HandleSubmit: the alerts and navigation after the PUT are not modelled, only whether the update counts as successful.
- UpdateProperty.UpdatePropertyForm.FetchPropertyDetails: the fetched record is assumed to carry every form field as text; a record missing one (which would make the later `trim` throw) is not modelled. Its other keys are kept with their values as text, so their JSON types (a numeric `propertyID`) are not modelled.
- The property search page (`PropertySearch.js:84-102`) renders no input and no form, and nothing calls `handleInputChange` or `handleSearch` (`PropertySearch.js:49-66`): in the page as shipped the shown list is always the loaded list. PropertySearch.PropertySearchView.HandleInputChange, PropertySearch.PropertySearchView.HandleSearch and the filter lemmas model these handlers as defined; no event reaches them.
- `isSubmitting` in both property forms: it only disables the button while a request is in flight.
- React effect scheduling and dependency arrays (`UpdateProperty.js:68`, `DashboardHome.js:69`): each effect run is a method call, and the order of runs is the caller's.
- Upper and lower case mapping is ASCII only; JavaScript's full Unicode case mapping is not modelled.
- JSX, CSS, icons, and the display text of numbers and dates.
- The server's business rules (application state machine, lease creation, payments, invoices, overdue computation, authorisation) are not in the client and are not modelled.
- `src/App.js`, `Profile.js`, `DeleteProfile.js`, `DeleteProperty.js`, `UploadDocument.js`, `Notifications.js`, `OwnerPayments.js`, `PaymentForm.js` and `RentalApplicationForm.js` have no client-side rule beyond fetch-and-display or an HTML `required` form, and are not part of this model.
