# SDG Connect: a verified model of its request rules

SDG Connect is a platform where members create projects and events tied to the
UN Sustainable Development Goals (SDGs). Other members join those projects,
offer resources to them, and donate money through M-Pesa STK push (a payment
prompt sent to the donor's phone). This project models the deterministic core
of the system in Dafny:

- the Express backend's donation lifecycle: the push request, the pending
  record, the `donationId` counter, the provider callback, the admin status
  override and delete, the public stats and the recent-donation list;
- the project participation rules: joining, offering resources, the
  attendance and delivery marks, the status allow-lists, the public listing
  filter, user deletion with its cascade, and the profile update;
- the validation and sanitising middleware, as functions of the request body
  (validators) and as in-place rewrites of `req.body` (sanitisers);
- the Mongoose schemas: enums, defaults, minimums and the pre-save hooks;
- the React modals' pure helpers and local state: password rules and form
  validation, the resource form checks, the SDG toggle and image filter, the
  skill editor, the project details selection and marks, and the display
  strings for offers and contributors.

The database is a set of in-memory collections. The `Authorization` header
becomes an `Auth` value: no token, a rejected token, or a caller id. The clock,
`Date.parse`/`new Date(v)` and the M-Pesa provider are parameters. Request
values are a JSON-like `JsValue` datatype. It comes with JavaScript's
truthiness, `String(v)`, `Number(v)` on integer text, `trim`, ASCII case mapping, `parseInt`, and an
integer-only `JSON.parse`/`JSON.stringify`, whose round trip is proved.

Handlers that update stored documents are methods of store classes
(`Donations.DonationStore`, `Participation.ProjectStore`,
`SiteSettings.SettingsStore`). The sanitisers are methods of
`Sanitization.Request`, which rewrites its `body` field. Each of these methods
is proved equal to a specification function, and the lemmas state what that
function promises.

In the profile update, the handler's fallback to `req.user?.name` and
`req.user?.email` (backend/server.js:250-255) never applies: no middleware on
that route sets `req.user`. The model therefore refuses an empty name or
e-mail outright (`Profiles.EmptyNameRefused`).

The M-Pesa callback route puts the `CheckoutRequestID` of an
unauthenticated request body into its query filter unchanged
(backend/server.js:1922-1925 and 1992-1996). The model casts that value the
way Mongoose casts a filter on a trimmed String path (`Donations.CastFilter`):
a string is compared trimmed, an array becomes `$in`, an object is read
as query operators, and a missing id is dropped from the query. So
`{"$ne": ""}`, or no `CheckoutRequestID` at all, settles whichever pending
donation comes first; see Findings.

## Model

| member | source | states |
|---|---|---|
| Validation.Decide | backend/middleware/validation.js:18-26 | `next()` exactly when no message was collected; otherwise a 400 with `success: false`, `Validation failed` and the messages; never a fault |
| Validation.RegistrationVerdict | backend/middleware/validation.js:1-27 | registration passes iff the name is a string trimmed to at least 2 characters, the e-mail matches the pattern and the password has at least 6 characters; a refusal lists each failed rule once, in the order name, e-mail, password |
| Validation.ObjectPasswordLength | backend/middleware/validation.js:14 | for an object password, a `length` of `null`, `false`, `''` or `[]` is refused; a numeric `length` passes iff it is at least 6; an `undefined` or object `length` passes, since comparing with `NaN` is false |
| Validation.NullLengthRefused | backend/middleware/validation.js:1-27 | a body whose name and e-mail pass and whose password is an object with `length: null` gets the 400 with the password message alone |
| Validation.MatchedEmailShape | backend/middleware/validation.js:10 | an accepted address has no white space and exactly one `@` |
| Validation.EmailNeedsAt | backend/middleware/validation.js:10 | an address without `@` or with white space is refused |
| Validation.EmailLowerCase | backend/middleware/validation.js:10 | an accepted address stays accepted once lower-cased |
| Validation.LoginVerdict | backend/middleware/validation.js:29-51 | login passes iff the e-mail matches and the password is truthy; there is no length rule; both messages come in that order |
| Validation.ShortPasswordLogsIn | backend/middleware/validation.js:34-40 | a one-character password that registration refuses passes the login check |
| Validation.ProjectCreationVerdict | backend/middleware/validation.js:53-87 | creation passes iff the type is event or project, the trimmed title has at least 3 characters, `sdgs` is a non-empty array, the start date parses and the trimmed brief has at least 10 characters; a truthy non-string title or brief throws |
| Sanitization.TrimOne | backend/middleware/sanitization.js:4 | one `if (v) v = v.trim()` statement: only its key can change, it throws iff the value is truthy and not a string, and it leaves the normalised value |
| Sanitization.NormalisedIdempotent | backend/middleware/sanitization.js:4-5 | normalising a normalised value changes nothing, and normalising never makes a value throw or stop throwing |
| Sanitization.TrimOneSettled | backend/middleware/sanitization.js:4 | a statement whose field is already normalised leaves the body as it is |
| Sanitization.TrimAllStops | backend/middleware/sanitization.js:3-11 | once a statement has thrown, the later ones leave the body as it was |
| Sanitization.TrimAllUpdate | backend/middleware/sanitization.js:3-11 | writing a field the statements do not list commutes with running them |
| Sanitization.TrimAllEffect | backend/middleware/sanitization.js:3-11 | running distinct field statements normalises every listed field, keeps the key set, and leaves every other field alone |
| Sanitization.TrimAllIdempotent | backend/middleware/sanitization.js:3-11 | running the statements again on their own result changes nothing |
| Sanitization.TrimmedItems | backend/middleware/sanitization.js:13 | an array of string skills is trimmed element by element, with length and order kept |
| Sanitization.TrimSkillsEffect | backend/middleware/sanitization.js:12-14 | the skills step changes only `skills`; a non-array value is left as it was |
| Sanitization.TrimSkillsSettled | backend/middleware/sanitization.js:12-14 | trimming the skills a second time changes nothing |
| Sanitization.SkillsStepSettled | backend/middleware/sanitization.js:1-17 | a body whose fields are settled and whose skills were trimmed passes the whole user sanitiser unchanged |
| Sanitization.SanitizeUserEffect | backend/middleware/sanitization.js:1-17 | `sanitizeUserInput` trims the eight listed fields, trims and lower-cases the e-mail, trims array skills, leaves unlisted fields alone, and fails only where a `.trim()` throws |
| Sanitization.SanitizeUserIdempotent | backend/middleware/sanitization.js:1-17 | sanitising the user body twice gives the same result as once |
| Sanitization.FixSdgsEffect | backend/middleware/sanitization.js:35-48 | after the sdgs step, `sdgs` is always an array: kept if already one, parsed from a string holding a JSON array, and `[]` otherwise |
| Sanitization.FixParsedSdgs | backend/middleware/sanitization.js:35-46 | a string holding a JSON array becomes that array |
| Sanitization.FixSdgsBody | backend/middleware/sanitization.js:35-48 | the sdgs step leaves the body with only `sdgs` set, to the final array |
| Sanitization.FixSdgsOfText | backend/middleware/sanitization.js:35-48 | on a non-empty string, the step keeps what parses to an array and leaves `[]` for anything else |
| Sanitization.FixSdgsUnparsed | backend/middleware/sanitization.js:39-41 | text that `JSON.parse` rejects leaves `[]` |
| Sanitization.FixSdgsParsedArray | backend/middleware/sanitization.js:37-46 | text holding an array leaves that array |
| Sanitization.FixSdgsParsedOther | backend/middleware/sanitization.js:37-47 | text holding anything but an array leaves `[]` |
| Sanitization.EmptyTextUnparsed | backend/middleware/sanitization.js:35-47 | the empty text holds no JSON value, so an empty `sdgs` string becomes `[]` |
| Sanitization.SettleOther | backend/middleware/sanitization.js:46-47 | a value that is not an array is replaced by `[]` |
| Sanitization.SanitizeProjectEffect | backend/middleware/sanitization.js:19-53 | `sanitizeProjectInput` trims its ten fields, makes `sdgs` an array, and touches nothing else |
| Sanitization.SanitizeProjectIdempotent | backend/middleware/sanitization.js:19-53 | sanitising the project body twice gives the same result as once |
| Sanitization.SdgsRoundTrip | backend/middleware/sanitization.js:35-48 | a `JSON.stringify`-ed list of SDG names comes back as that list |
| Sanitization.SanitizedProjectNeverFaults | backend/middleware/sanitization.js:23-32 | after the project sanitiser has got through, the creation validator never throws |
| Sanitization.SanitizeOfferEffect | backend/middleware/sanitization.js:55-70 | `sanitizeOfferInput` trims its eleven fields; `quantity` and `timeCommitment` pass through unchanged |
| Sanitization.SanitizeOfferIdempotent | backend/middleware/sanitization.js:55-70 | sanitising the offer body twice gives the same result as once |
| Sanitization.OfferPassThrough | backend/middleware/sanitization.js:57-67 | `quantity` and `timeCommitment` are not among the trimmed offer fields |
| Sanitization.SanitizeDonationEffect | backend/middleware/sanitization.js:72-79 | `sanitizeDonationInput` trims name and phone, trims and lower-cases the e-mail, and leaves amount and anonymous alone |
| Sanitization.SanitizeDonationIdempotent | backend/middleware/sanitization.js:72-79 | sanitising the donation body twice gives the same result as once |
| Sanitization.UserChainIsTrimAll | backend/middleware/sanitization.js:3-11 | the user statements in source order are the generic field run over the user field list |
| Sanitization.ProjectChainIsTrimAll | backend/middleware/sanitization.js:23-32 | the same for the project statements |
| Sanitization.OfferChainIsTrimAll | backend/middleware/sanitization.js:57-67 | the same for the offer statements |
| Sanitization.DonationChainIsTrimAll | backend/middleware/sanitization.js:74-76 | the same for the donation statements |
| Sanitization.Request.constructor | backend/middleware/sanitization.js:1-79 | a request starts with the body it was given |
| Sanitization.Request.TrimField | backend/middleware/sanitization.js:4 | the in-place statement leaves the body `TrimOne` describes |
| Sanitization.Request.SanitizeUserInput | backend/middleware/sanitization.js:1-17 | the in-place rewrite of `req.body` ends in the state `SanitizeUser` describes |
| Sanitization.Request.SanitizeProjectInput | backend/middleware/sanitization.js:19-53 | the in-place rewrite ends in the state `SanitizeProject` describes |
| Sanitization.Request.SanitizeOfferInput | backend/middleware/sanitization.js:55-70 | the in-place rewrite ends in the state `SanitizeOffer` describes |
| Sanitization.Request.SanitizeDonationInput | backend/middleware/sanitization.js:72-79 | the in-place rewrite ends in the state `SanitizeDonation` describes |
| Text.TrimShape | backend/middleware/sanitization.js:4 | `trim` leaves text that starts and ends with a non-space, found in the input with only white space around it; it leaves nothing iff the input is all white space |
| Text.TrimIdempotent | backend/middleware/sanitization.js:4 | trimming twice is trimming once |
| Text.TrimLowerCommute | backend/middleware/sanitization.js:5 | trimming and lower-casing commute |
| Text.ToLowerIdempotent | backend/middleware/sanitization.js:5 | lower-casing twice is lower-casing once |
| Text.ToLower | backend/middleware/sanitization.js:5 | `toLowerCase()` keeps the length and maps each character on its own |
| Text.ToUpper | frontend/components/modal/OfferDetailsModal.jsx:51 | `toUpperCase()` keeps the length and maps each character on its own |
| Text.NatToString | backend/server.js:1639-1649 | `String(n)` of a natural number is a non-empty run of digits with no leading zero |
| Text.Utf16Length | frontend/components/modal/LoginModal.jsx:25 | `password.length` counts at least one and at most two code units per character |
| JsValues.Member | backend/server.js:1911-1913 | property lookup finds a member with that key, or gives `undefined` when there is none |
| JsValues.ParseIntOfIntToString | backend/server.js:1249 | `parseInt(String(n))` and `parseFloat(String(n))` give `n` back for every integer |
| JsValues.DigitRun | backend/server.js:1249 | `parseInt` reads exactly the longest run of digits at the start |
| JsValues.ToJsStringOfString | backend/server.js:1249 | `String(v)`, which `parseInt` applies to its argument first, keeps a string and turns a one-element array into its element |
| JsValues.StringToNumber | backend/middleware/validation.js:14 | `Number(s)`: blank text is 0 |
| JsValues.BinaryNumber | backend/middleware/validation.js:14 | `Number("0b11")` is 3: a `0b` prefix reads base 2 |
| JsValues.OctalNumber | backend/middleware/validation.js:14 | `Number("0o17")` is 15: a `0o` prefix reads base 8 |
| JsValues.SignedPrefixIsNaN | backend/middleware/validation.js:14 | a prefixed numeral takes no sign: `Number("-0b1")` is `NaN` |
| JsValues.NumberOfIntToString | backend/server.js:622 | `Number(String(n))` gives `n` back for every integer |
| JsValues.ToNumber | backend/middleware/validation.js:14 | `Number(v)` as a comparison applies it: a number is itself; `null`, `false`, `''` and `[]` are 0; `undefined` and a plain object are `NaN` |
| Json.ParseStringify | backend/middleware/sanitization.js:37-41 | `JSON.parse(JSON.stringify(v))` gives `v` back for every value without `undefined` |
| Json.ParseStringifyStrings | frontend/components/modal/ProjectEventModal.jsx:80-86 | in particular for the string arrays the forms send as `sdgs` and `skills` |
| DonationModel.StatusOf | backend/models/Donation.js:47-51 | a request status is accepted iff it is one of pending, completed, failed, and then it names that status |
| DonationModel.CastBoolean | backend/models/Donation.js:43-46 | a Boolean casts to itself; only Booleans, numbers and strings cast at all |
| DonationModel.NewDonation | backend/models/Donation.js:11-70 | a new donation is pending, with no receipt, an empty `donationUsedFor`, both timestamps at creation, the trimmed checkout id, and trimmed name, phone and e-mail with the e-mail lower-cased |
| DonationModel.CastString | backend/models/Donation.js:20-37 | the String cast unsets exactly on null/undefined, and fails exactly on arrays and on objects that do not carry a non-empty string `_id`; such an object stores that `_id`, trimmed |
| DonationModel.CastStringTrimmed | backend/models/Donation.js:25 | whatever the trimming String cast stores has no surrounding white space |
| JsValues.NumberTextTrimmed | backend/models/Donation.js:27-31 | a number cast to a string has no white space to trim |
| Donations.PushCheck | backend/server.js:1792-1806 | the three 400 checks in order: missing amount, e-mail or phone; then a missing name when not anonymous; then a phone not matching `^254[0-9]{9}$`; `None` iff all pass |
| Donations.Draft | backend/server.js:1866-1879 | a pending record the schema accepts, carrying the provider's checkout id and the caller, with no name iff anonymous, and the parsed amount |
| Donations.FindItem | backend/server.js:1930-1932 | `items.find(i => i.Name === n)?.Value`: a found value belongs to an item with that name; the search throws iff it reaches a null or undefined item first |
| Donations.CastEach | backend/server.js:1922-1925 | an operand list casts element by element, and fails iff some element is an array or object |
| Donations.CastOperator | backend/server.js:1992-1996 | only `$eq`, `$ne`, `$in`, `$nin`, `$gt`, `$gte`, `$lt`, `$lte` and `$exists` cast; any other key throws |
| Donations.CastOperators | backend/server.js:1992-1996 | an operator object casts iff each of its members does, one condition per member |
| Donations.CastFilter | backend/server.js:1922-1925 | `{checkoutRequestId: v}`: a string is compared trimmed, a number as its numeral, `null` matches no stored id, `undefined` puts no condition at all; an object without operator keys casts iff it carries a non-empty string `_id`, and is then compared with that id, trimmed |
| Donations.TextIdMatches | backend/server.js:1922-1925 | with a string checkout id, a record is selected iff it is pending and holds that id, trimmed |
| Donations.FirstPending | backend/server.js:1922-1925 | the first pending record every cast condition holds for, or none when there is none |
| Donations.CallbackFilter | backend/server.js:1911-1913 | a filter exists only when `Body.stkCallback` is present, and it is the cast of its `CheckoutRequestID` |
| Donations.Completion | backend/server.js:1929-1945 | the successful branch sets the status to completed and changes only receipt, transaction date and update time |
| Donations.SettleEffect | backend/server.js:1917-2001 | once the filter is cast, only the first selected pending record can change, to completed iff `ResultCode` is 0, keeping id, amount, donor and checkout id |
| Donations.ReconcileEffect | backend/server.js:1904-2013 | a callback changes at most the first pending record the cast filter selects; it leaves pending, to completed iff `ResultCode` is 0, and keeps id, amount, donor and checkout id; completed and failed records are never touched |
| Donations.ReconcileTransition | backend/server.js:1917-2001 | the selected record becomes failed and re-stamped for a `ResultCode` other than 0; for 0 it becomes what `Completion` makes of it, and nothing changes when `Completion` fails |
| Donations.ReconcileNoChange | backend/server.js:1911-2004 | no `Body.stkCallback`, a checkout id whose cast throws, no selected pending record, or a success without `CallbackMetadata` leaves every record as it was (a missing checkout id is not among these: it selects every pending record) |
| Donations.CompletionOfItems | backend/server.js:1929-1942 | with readable items and a valid date, the record is completed with the trimmed receipt and that date |
| Donations.ReceiptStored | backend/server.js:1917-1942 | on success with readable metadata the selected record, and no other, becomes completed with the trimmed `MpesaReceiptNumber` as receipt and the `TransactionDate` as payment time |
| Donations.CompletedCarriesReceipt | backend/server.js:1930-1942 | conversely, a record the callback completed holds the `MpesaReceiptNumber` item's value |
| Donations.NotEmptyFilter | backend/server.js:1922-1925 | `{"$ne": ""}` casts to the single condition "not the empty string" |
| Donations.OperatorIdFailsAny | backend/server.js:1992-1996 | with `{"$ne": ""}` as checkout id and a failure code, the first pending record with any non-empty checkout id is marked failed |
| Donations.MissingIdSettlesFirst | backend/server.js:1913-1996 | a callback without `CheckoutRequestID` has the empty filter; the first pending record of any donor is then marked failed for a code other than 0, or completed for 0 with readable metadata |
| Donations.ReconcileIdempotent | backend/server.js:1922-1996 | a repeated callback changes nothing more when no other pending record satisfies the same filter |
| Donations.StrictFilter | backend/server.js:1922-1925 | the intended filter exists exactly for a string checkout id |
| Donations.StrictTouchesOnlyNamed | backend/server.js:1922-1996 | with the intended filter, only a pending record holding the callback's trimmed string id can change |
| Donations.IndexOf | backend/server.js:697-701 | `findById` finds a record with that id, or reports that none has it |
| Donations.DonationStore.constructor | backend/models/Donation.js:4-7 | a fresh store has no records and a counter at 0 |
| Donations.DonationStore.SaveNew | backend/models/Donation.js:72-87 | a new record is saved iff it passes validation and the counter update succeeds; it then gets the next id, and the counter moves by exactly one |
| Donations.DonationStore.InitiatePush | backend/server.js:1789-1901 | sanitiser fault, 400 in check order, not configured, provider failure, or a started push; a pending record is appended only on a started push, never on an error path |
| Donations.DonationStore.HandleCallback | backend/server.js:1904-2013 | the callback is always answered `{received: true}` and leaves the records `Reconcile` describes |
| Donations.DonationStore.SetStatus | backend/server.js:688-712 | 400 outside pending/completed/failed, 404 for an unknown id, otherwise the new status from any current one |
| Donations.DonationStore.Delete | backend/server.js:714-729 | removes the record with that id, or answers 404; the counter is not decremented |
| DonationStats.CompletedDonations | backend/server.js:1584-1597 | every completed record and only completed records |
| DonationStats.CompletedCount | backend/server.js:1584-1597 | each completed record appears as often as in the store, and no other record appears |
| DonationStats.CompletedAppend | backend/server.js:1584-1597 | store order is kept: the completed records of `a + b` are those of `a` followed by those of `b` |
| DonationStats.Highest | backend/server.js:1598-1605 | the largest amount, or 0 when there is none |
| DonationStats.Lowest | backend/server.js:1598-1605 | the smallest amount, or 0 when there is none |
| DonationStats.Donors | backend/server.js:1591-1594 | exactly the e-mails of completed, non-anonymous donations |
| DonationStats.StatsBounds | backend/server.js:1581-1617 | with no completed donation every figure is 0; otherwise `1 <= lowest <= highest <= total`, both extremes are amounts, and every completed amount lies between them |
| DonationStats.SumAtLeastEach | backend/server.js:1584-1588 | with amounts of at least 1, the total is at least each amount, and at least 1 when there is one |
| DonationStats.DonorsBound | backend/server.js:1591-1594 | never more donors than completed donations |
| DonationStats.NewDonor | backend/server.js:1591-1594 | a further completed, non-anonymous donation adds exactly its e-mail to the donors |
| DonationStats.RepeatDonor | backend/server.js:1591-1594 | a donor who gives again is not counted twice |
| DonationStats.NewestFirst | backend/server.js:1624 | a permutation of the input sorted newest first |
| DonationStats.Insert | backend/server.js:1624 | inserting a record keeps a newest-first list newest first and adds exactly that record |
| DonationStats.InsertStep | backend/server.js:1624 | a record newer than the one inserted stays in front and the list stays newest first |
| DonationStats.TakeIsNewest | backend/server.js:1624-1625 | everything outside a prefix of a newest-first list is no newer than everything inside it |
| DonationStats.RecentCompleted | backend/server.js:1622-1625 | at most four records come back |
| DonationStats.PrefixSelection | backend/server.js:1624-1625 | a prefix of the newest-first list comes from the list, keeps the order, and is at least as new as all it leaves out |
| DonationStats.RecentSelection | backend/server.js:1622-1625 | `min(4, number of completed)` completed donations come back, newest first, and none left out is newer than one shown |
| DonationStats.DiffDays | backend/server.js:1633-1636 | the absolute gap rounded up to whole days |
| DonationStats.Bucket | backend/server.js:1638-1649 | days below 7, whole weeks below 30, whole months from 30 on |
| DonationStats.PhraseReadsBack | backend/server.js:1639-1649 | the phrase starts with the bucket's count, and the unit is plural exactly when that count is not 1 |
| DonationStats.PhraseNumber | backend/server.js:1639-1649 | `parseInt` of the phrase gives back its count |
| DonationStats.PhrasePlural | backend/server.js:1639-1649 | the unit takes an `s` exactly when the count is not 1 |
| DonationStats.DonorNameMasked | backend/server.js:1652 | an anonymous donor's name is never shown; a shown name is the stored one |
| DonationStats.RecentDonations | backend/server.js:1631-1657 | one entry per selected donation, with the masked name, the amount, the fixed purpose and the relative time |
| Schemas.OwnerStatusesNarrower | backend/server.js:1118 | the owner's allowed statuses (line 1118) are a strict subset of the admin's (line 802); pending and rejected are admin-only |
| Schemas.DefaultSlots | backend/models/Project.js:54-60 | `slotsRemaining` defaults to `peopleRequired`, or 0 when absent |
| Schemas.TrimOpt | backend/models/Project.js:25-36 | the `trim` setter on an optional field keeps presence and leaves no surrounding white space |
| Schemas.NewProject | backend/server.js:892-909 | a new project is pending, with no participants or resources, the default slots, a trimmed title and brief, the trimmed SDGs, and the given country, city and exact location, trimmed |
| Schemas.NewProjectOk | backend/models/Project.js:3-126 | a new project passes `save()` iff its type is known, title and brief are non-empty, it has a creator, and people required is not negative |
| Schemas.NewContributor | backend/models/Contributor.js:37-50 | a new contributor is confirmed, `Not delivered`, attendance pending, with the given links |
| Schemas.NewContributorOk | backend/models/Contributor.js:3-18 | a new contributor passes `save()` iff it names a user, a project and a known type, with a non-negative quantity |
| Schemas.ContributorsOf | backend/models/Project.js:128-154 | a virtual holds exactly the project's contributor records of that type |
| Schemas.VirtualsDisjoint | backend/models/Project.js:128-154 | `participantsAttending` and `resourcesPromised` never share a record |
| Schemas.NewOffer | backend/models/Offer.js:3-83 | a new offer is pending, anonymous only when the request says true, and has delivery details only when given |
| Schemas.OfferMethodRule | backend/models/Offer.js:60-71 | a blank method passes; otherwise only online or in-person |
| Schemas.NewOfferOk | backend/models/Offer.js:8-42 | a new offer passes `save()` iff its category is known, its contact is given, its logistics is delivery or pickup if given, and its method passes |
| SiteSettings.Over | backend/server.js:615 | `undefined` keeps a field, `null` clears it, a cast value replaces it |
| SiteSettings.Apply | backend/server.js:615-623 | each of the nine fields is kept, cleared or replaced as the request's value for it says |
| SiteSettings.ApplyLaws | backend/server.js:615-623 | an empty update changes nothing, and applying the same update twice is applying it once |
| SiteSettings.SettingsStore.constructor | backend/models/Settings.js:3-42 | no settings document exists at first |
| SiteSettings.SettingsStore.Save | backend/models/Settings.js:44-53 | saving a new document fails iff one exists; re-saving the existing one skips the check; so at most one exists |
| SiteSettings.SettingsStore.Read | backend/server.js:580-593 | the stored document, or a newly saved one at the schema defaults |
| SiteSettings.CastFlag | backend/models/Settings.js:4-15 | a Boolean path keeps a Boolean and fails exactly on values the Boolean cast refuses |
| SiteSettings.CastText | backend/models/Settings.js:16-31 | a String path keeps a string, stores the `_id` of an object carrying a non-empty string one, and fails exactly on arrays and on other objects |
| SiteSettings.CastNumber | backend/models/Settings.js:32-35 | `castNumber` keeps a number, stores `''` as `null`, and fails on arrays, objects and text that is not a number |
| SiteSettings.CastCount | backend/models/Settings.js:32-35 | a Number path keeps a number and `undefined` keeps the field; an array, an object without `_id`, or one whose `_id` is an array or object fails; an object with a numeric `_id` stores it |
| SiteSettings.PatchFields | backend/server.js:615-623 | a field the request leaves out keeps its value, `null` clears it, and a value of the field's type replaces it |
| SiteSettings.BinaryLimitStored | backend/server.js:625 | `maxProjectsPerUser: "0b11"` is cast to the number 3 |
| SiteSettings.BadValueRejected | backend/server.js:625 | `emailNotifications: "maybe"`, a non-numeric `maxProjectsPerUser`, or a `siteName` that is an array or an object whose `_id` is not a string makes the update fail |
| SiteSettings.SettingsStore.Update | backend/server.js:595-631 | a value that fails its cast gives 500 and stores nothing; otherwise the stored document (or the defaults) with the request's fields applied becomes the only document |
| Participation.JoinCheck | backend/server.js:1173-1187 | the join guards in order: already a participant, the creator, no free slot; `None` iff none applies |
| Participation.JoinEffect | backend/server.js:1189-1198 | a join keeps the project valid (no negative slots), adds exactly one participant and takes exactly one slot, and the same user cannot join again |
| Participation.JoinsBounded | backend/server.js:1185-1196 | accepted joins never take more slots than the project had |
| Participation.OfferedResource | backend/server.js:1245-1253 | the pushed resource is pending, offered by the caller, with `parseInt(quantity)` of at least 1; `None` when the schema cast or check fails |
| Participation.ZeroQuantityPassesPresenceCheck | backend/server.js:1233-1249 | a quantity of `"0"` passes the presence check and then fails the schema minimum |
| Participation.IntToStringZero | backend/server.js:1233-1249 | `String(0)` is `"0"`, a truthy string |
| Participation.OwnerCheck | backend/server.js:1383-1443 | the mark goes ahead iff the caller has a valid token, the contributor and its project exist, the caller created the project, and the type matches; 403 iff only the creator check fails |
| Participation.Listing | backend/server.js:1043-1059 | the listing holds exactly the projects visible to the viewer that match the optional type and SDG filters |
| Participation.VisibilityRules | backend/server.js:1047-1059 | visitors see only active projects; members also see their own pending or completed ones; admins see all; cancelled and rejected projects are never shown to members |
| Participation.ListingMonotone | backend/server.js:1047-1059 | visitor listing ⊆ member listing ⊆ admin listing |
| Participation.DeleteCascade | backend/server.js:562-567 | afterwards nothing the user contributed or created is left, everything else is kept, and other users' contributions to deleted projects stay without their project |
| Participation.SanitizeRequest | backend/server.js:237 | running the middleware on a fresh request gives the result `SanitizeUser` describes |
| Participation.UpdateProfileSteps | backend/server.js:237 | the profile update is the middleware followed by the handler; a sanitiser fault is a 500 |
| Participation.UpdateFits | backend/server.js:237-313 | an accepted update replaces the caller's own record with a valid user and keeps e-mails unique |
| Participation.ProjectStore.constructor | backend/models/Project.js:54-60 | empty collections satisfy the store invariant |
| Participation.ProjectStore.AddContributor | backend/models/Contributor.js:3-57 | a contributor is stored under the next id iff it passes its schema checks |
| Participation.ProjectStore.Join | backend/server.js:1156-1220 | 401, 500 or 404 without change; 400 with the guard's message; otherwise the project joined, plus a participant record when the caller id is non-empty; `slotsRemaining >= 0` kept |
| Participation.ProjectStore.PushResource | backend/server.js:1246-1255 | the project gets the resource appended to its list; nothing else in the store changes |
| Participation.ProjectStore.OfferResource | backend/server.js:1223-1282 | 401; 400 before any lookup when a field is falsy; on 200 the resource is appended pending and the next contributor id holds a `resource_provider` record with the offer's type, quantity and date; any other code leaves projects, contributors and the counter as they were |
| Participation.ProjectStore.MarkAttended | backend/server.js:1382-1416 | the owner check's code, or attendance set to yes and nothing else changed |
| Participation.ProjectStore.MarkDelivered | backend/server.js:1419-1454 | the owner check's code, or status and `resourcesDelivered` set to delivered and nothing else changed |
| Participation.ProjectStore.AdminContributorStatus | backend/server.js:1457-1481 | 400 outside the five statuses, 404 for an unknown contributor, otherwise the new status |
| Participation.ProjectStore.AdminAttend | backend/server.js:1483-1509 | 400 outside pending/yes/no, 404 unknown, 400 for a non-participant, otherwise the new attendance |
| Participation.ProjectStore.AdminDeliver | backend/server.js:1511-1533 | 404 unknown, 400 for a non-provider, otherwise delivered |
| Participation.ProjectStore.AdminProjectStatus | backend/server.js:798-833 | 400 outside the five statuses, 404 unknown, otherwise the new status |
| Participation.ProjectStore.OwnerProjectStatus | backend/server.js:1108-1153 | 200 iff the status is active, completed or cancelled, the caller exists, and the caller is an admin or the project's creator; only then does the status change |
| Participation.ProjectStore.AdminOfferStatus | backend/server.js:662-686 | 400 outside pending/approved/rejected, 404 unknown, otherwise the new status |
| Participation.ProjectStore.DeleteUser | backend/server.js:547-577 | 404 unknown, 400 for an admin, otherwise the user, their contributions and their projects removed |
| Participation.ProjectStore.UpdateProfile | backend/server.js:237-321 | answers what `Profiles.UpdateProfile` answers and stores the updated user only on success |
| Participation.ProjectStore.SaveUser | backend/server.js:293 | storing a valid user with a unique e-mail keeps the store invariant |
| Profiles.Assign | backend/server.js:280-291 | `v \|\| stored`: a falsy value keeps the stored field, a string is stored trimmed, arrays and objects without a non-empty string `_id` fail the cast |
| Profiles.CastItems | backend/server.js:286 | a `[String]` field accepts an array iff every element casts, and stores each element's cast |
| Profiles.SkillsAsWritten | backend/server.js:286 | as written, only an array replaces the stored skills |
| Profiles.SkillsEditLost | backend/server.js:286 | the list the profile form sends never reaches the stored user |
| Profiles.SkillsEditLostExample | backend/server.js:286 | adding a first skill and saving leaves the user with no skills |
| Profiles.SkillsIntended | backend/server.js:286 | the corrected rule, parsing as the `sdgs` handling at line 895 does: an array is used, a string holding a JSON array is parsed first, anything else keeps the stored list |
| Profiles.SkillsEditKept | backend/server.js:286 | under the corrected rule the form's list is the list stored |
| Profiles.CastStrings | backend/server.js:286 | casting a list of trimmed strings gives the list back |
| Profiles.Merge | backend/server.js:273-291 | each listed field is the request's value or the stored one; the picture is the uploaded path or the stored one; a falsy date keeps the stored date; identity and admin flag never change |
| Profiles.UpdateProfile | backend/server.js:237-321 | an accepted update is for the caller's own record and passes the user schema |
| Profiles.Handle | backend/server.js:238-320 | the token, name and e-mail checks in that order; then the lookup and the uniqueness check |
| Profiles.HandleEffect | backend/server.js:266-291 | an accepted update stores the request's name and e-mail, and an e-mail nobody else holds |
| Profiles.EmptyNameRefused | backend/server.js:250-252 | an empty name is refused with 400; the fallback never applies |
| Profiles.UpdateProfileEffect | backend/server.js:280-281 | the stored e-mail is the submitted one trimmed and lower-cased; the name is trimmed |
| Profiles.FalsyFieldUntouched | backend/middleware/sanitization.js:1-17 | a listed field the request leaves falsy reaches the handler unchanged |
| Profiles.UnlistedFieldUntouched | backend/middleware/sanitization.js:1-17 | a field the sanitiser does not list reaches the handler unchanged |
| Profiles.UpdateProfileKeeps | backend/server.js:280-291 | phone, bio, city, gender, organization, country, exact location and date of birth each keep their stored value when the request leaves them falsy; the admin flag is unchanged |
| Profiles.UpdatedEmail | backend/server.js:265-271 | the stored e-mail is the user's old one or one nobody holds |
| Profiles.SanitizedEmail | backend/middleware/sanitization.js:5 | a truthy e-mail the sanitiser let through is already trimmed and lower-case |
| Profiles.UserFieldSanitized | backend/middleware/sanitization.js:3-11 | after a sanitiser run that got through, a listed field holds its normalised raw value, which did not throw |
| Profiles.StoreKeepsEmailsUnique | backend/models/User.js:10-16 | storing a user with their old e-mail or an unused one keeps e-mails unique |
| Profiles.UpdateKeepsEmailsUnique | backend/models/User.js:10-16 | an accepted profile update keeps e-mails unique, as the `unique` index demands |
| Selection.Remove | frontend/components/modal/ProfileUpdateModal.jsx:64-69 | `filter(y => y !== x)` drops every `x` and keeps every other entry |
| Selection.RemoveAppend | frontend/components/modal/ProfileUpdateModal.jsx:67 | filtering works piece by piece, so the remaining entries keep their order |
| Selection.RemoveAbsent | frontend/components/modal/ProfileUpdateModal.jsx:67 | filtering out an absent entry changes nothing |
| Selection.RemoveNoDup | frontend/components/modal/ProfileUpdateModal.jsx:67 | filtering keeps a list free of duplicates |
| Selection.Toggle | frontend/components/modal/ProjectDetailsModal.jsx:34-48 | the toggle flips membership of one entry and leaves every other entry's membership alone |
| Selection.ToggleNoDup | frontend/components/modal/ProjectEventModal.jsx:38-40 | toggling keeps a list free of duplicates |
| Selection.ToggleTwice | frontend/components/modal/ProjectEventModal.jsx:38-40 | toggling an absent entry twice restores the list; toggling a present one twice moves it to the end |
| Selection.ToggleTwiceReorders | frontend/components/modal/ProjectEventModal.jsx:38-40 | a double toggle can change order: `[1, 2]` becomes `[2, 1]` |
| LoginForm.ValidateForm | frontend/components/modal/LoginModal.jsx:34-48 | valid iff no error; e-mail error iff empty; password error iff empty or, when registering, weak, with the weak message overriding; name and confirm errors only when registering |
| LoginForm.Payload | frontend/components/modal/LoginModal.jsx:56-58 | login sends e-mail and password only; register also sends the name; never `confirmPassword` |
| LoginForm.StrongPasswordPassesBackend | frontend/components/modal/LoginModal.jsx:25 | a password meeting all register rules also meets the backend's length rule |
| LoginForm.FormNameLooser | frontend/components/modal/LoginModal.jsx:39 | the form accepts a one-letter or blank name that the backend refuses |
| LoginForm.StrongExample | frontend/components/modal/LoginModal.jsx:23-32 | `Passw0rd!` meets all five rules; `password1!` lacks an upper-case letter |
| ResourceForm.Check | frontend/components/modal/ProvideResourcesModal.jsx:31-51 | the first failing check decides: fields missing iff a trimmed type or a field is empty; a passing form has a quantity that is not `<= 0` and a date not before midnight |
| ResourceForm.TodayAllowed | frontend/components/modal/ProvideResourcesModal.jsx:43-51 | a delivery today passes and yesterday is refused |
| ResourceForm.CheckedFormAccepted | frontend/components/modal/ProvideResourcesModal.jsx:61 | a form that passes its checks passes the backend's presence check and is pushed as offered |
| ResourceForm.UnparsableQuantityPasses | frontend/components/modal/ProvideResourcesModal.jsx:37-41 | a quantity like `many` passes the form and then fails at the backend |
| ResourceForm.ResourceModal.constructor | frontend/components/modal/ProvideResourcesModal.jsx:25-62 | the modal starts with no error and nothing posted |
| ResourceForm.ResourceModal.Submit | frontend/components/modal/ProvideResourcesModal.jsx:25-62 | a failed check shows its message and posts nothing; otherwise the unchanged form data is posted |
| ProjectEventForm.ToggleSdg | frontend/components/modal/ProjectEventModal.jsx:35-42 | only `sdgs` changes, by the toggle |
| ProjectEventForm.ToggleSdgLaws | frontend/components/modal/ProjectEventModal.jsx:38-40 | the SDG list never holds a duplicate, and checking then unchecking restores the form |
| ProjectEventForm.ChooseFile | frontend/components/modal/ProjectEventModal.jsx:44-68 | an acceptable file replaces the choice; no file or a refused one leaves it as it was |
| ProjectEventForm.WordAnywhere | frontend/components/modal/ProjectEventModal.jsx:48-50 | the type test matches anywhere in the name: `photo.png.exe` is taken |
| ProjectEventForm.MimeCaseKept | frontend/components/modal/ProjectEventModal.jsx:50 | the MIME type is not lower-cased: `IMAGE/PNG` is refused |
| ProjectEventForm.SizeLimitInclusive | frontend/components/modal/ProjectEventModal.jsx:49-58 | the name is lower-cased, and exactly 5 MiB is accepted |
| ProjectEventForm.OverSizeLimit | frontend/components/modal/ProjectEventModal.jsx:58 | one byte over 5 MiB is refused |
| ProjectEventForm.SubmittedSdgsArrive | frontend/components/modal/ProjectEventModal.jsx:80-86 | what the form sends passes the sanitiser, which turns `sdgs` back into the form's list; the SDG rule holds iff a box was checked |
| ProjectEventForm.SanitizeStrings | backend/middleware/sanitization.js:19-53 | a body of strings passes the project sanitiser with its stringified SDG list restored |
| ProjectEventForm.FixStringifiedSdgs | backend/middleware/sanitization.js:35-46 | the sdgs step turns a stringified SDG list back into the list |
| ProjectEventForm.AfterSubmit | frontend/components/modal/ProjectEventModal.jsx:103-125 | an accepted submit resets the form to its initial values; otherwise it is unchanged |
| ProfileForm.DatePart | frontend/components/modal/ProfileUpdateModal.jsx:32 | the prefix before the first `T` |
| ProfileForm.DatePartOfDateTime | frontend/components/modal/ProfileUpdateModal.jsx:32 | an ISO date-time yields its date |
| ProfileForm.OrEmpty | frontend/components/modal/ProfileUpdateModal.jsx:27 | `value \|\| ''`: a missing value is `''`, a present one is itself |
| ProfileForm.Populate | frontend/components/modal/ProfileUpdateModal.jsx:25-39 | each of the ten text fields shows the stored value or `''`, skills are copied, and the date is the ISO string's part before `T`, or `''` |
| ProfileForm.AddSkill | frontend/components/modal/ProfileUpdateModal.jsx:54-62 | the trimmed input is appended iff it is non-empty and new; the box is cleared only then |
| ProfileForm.AddSkillKeepsClean | frontend/components/modal/ProfileUpdateModal.jsx:55-59 | adding never introduces a duplicate, an empty or an untrimmed skill |
| ProfileForm.AddThenRemove | frontend/components/modal/ProfileUpdateModal.jsx:54-69 | removing the skill just added restores the list |
| ProfileForm.RemoveKeepsClean | frontend/components/modal/ProfileUpdateModal.jsx:64-69 | removing keeps the list clean |
| ProfileForm.SubmittedSkills | frontend/components/modal/ProfileUpdateModal.jsx:91-97 | the skills sent as a JSON string are dropped by the handler as written, and stored by the corrected rule |
| ProjectDetails.Parts | frontend/components/modal/ProjectDetailsModal.jsx:27-30 | at most three parts, none empty |
| ProjectDetails.LocationString | frontend/components/modal/ProjectDetailsModal.jsx:26-32 | the given parts joined with `, `, in the order country, city, exact location |
| ProjectDetails.LocalDelivered | frontend/components/modal/ProjectDetailsModal.jsx:122-129 | exactly the selected records read as delivered, the others stay, and a missing list becomes empty |
| ProjectDetails.LocalDeliveredLaws | frontend/components/modal/ProjectDetailsModal.jsx:122-129 | the update is idempotent, and an empty selection changes nothing |
| ProjectDetails.Mark | backend/server.js:1408-1446 | a mark leaves the record marked and keeps its links |
| ProjectDetails.OwnerCheckStable | backend/server.js:1395-1406 | the owner check reads only fields a mark never touches |
| ProjectDetails.Step | backend/server.js:1382-1454 | one mark request changes at most its own record, and marks it when the check lets it through |
| ProjectDetails.Marks | frontend/components/modal/ProjectDetailsModal.jsx:56-66 | one request per selected id, in order, keeps the set of stored records |
| ProjectDetails.MarksEffect | frontend/components/modal/ProjectDetailsModal.jsx:56-66 | the effect of the parallel requests does not depend on their order: allowed selected records are marked, all others stay |
| ProjectDetails.SendMark | frontend/components/modal/ProjectDetailsModal.jsx:57-63 | one request changes the contributors as `Step` says and nothing else |
| ProjectDetails.SendMarks | frontend/components/modal/ProjectDetailsModal.jsx:56-66 | one request per selected id leaves the contributors as `Marks` says and nothing else |
| ProjectDetails.DetailsView.constructor | frontend/components/modal/ProjectDetailsModal.jsx:34-48 | both selections start empty |
| ProjectDetails.DetailsView.SelectParticipant | frontend/components/modal/ProjectDetailsModal.jsx:34-40 | toggles one participant id; nothing else changes |
| ProjectDetails.DetailsView.SelectResource | frontend/components/modal/ProjectDetailsModal.jsx:42-48 | toggles one resource id; nothing else changes |
| ProjectDetails.DetailsView.MarkParticipantsAttended | frontend/components/modal/ProjectDetailsModal.jsx:50-77 | nothing happens without a selection; otherwise the attendance marks are sent and the selection cleared |
| ProjectDetails.DetailsView.MarkResourcesDelivered | frontend/components/modal/ProjectDetailsModal.jsx:103-140 | nothing happens without a selection; otherwise the delivery marks are sent, the local copy is updated, and the selection cleared; every record the check allowed reads the same locally as in the store |
| OfferDetails.FirstDash | frontend/components/modal/OfferDetailsModal.jsx:30 | the index of the first `-`, or the length when there is none |
| OfferDetails.ReplaceFirstDash | frontend/components/modal/OfferDetailsModal.jsx:30 | same length; a string without `-` is unchanged |
| OfferDetails.ReplaceOnlyFirst | frontend/components/modal/OfferDetailsModal.jsx:30 | only the first `-` becomes `/`; every later one stays, and no other character changes |
| OfferDetails.CapitalizeWords | frontend/components/modal/OfferDetailsModal.jsx:30 | every word-initial character is upper-cased and every other character is kept; lower-case equality is preserved |
| OfferDetails.CapitalizeIdempotent | frontend/components/modal/OfferDetailsModal.jsx:30 | capitalising twice is capitalising once |
| OfferDetails.CapitalizeAround | frontend/components/modal/OfferDetailsModal.jsx:30 | text on either side of a non-word character is capitalised independently |
| OfferDetails.CategoryDisplayName | frontend/components/modal/OfferDetailsModal.jsx:29-31 | the same letters as the dash-replaced category, ignoring case |
| OfferDetails.CapitalizeWord | frontend/components/modal/OfferDetailsModal.jsx:30 | a lower-case word gets only its first letter upper-cased |
| OfferDetails.OneWordCategory | frontend/components/modal/OfferDetailsModal.jsx:29-31 | a one-word category is shown capitalised, e.g. `money` as `Money` |
| OfferDetails.TwoWordCategory | frontend/components/modal/OfferDetailsModal.jsx:29-31 | `a-b` is shown as `A/B`, e.g. `food-perishables` as `Food/Perishables` |
| OfferDetails.DashBetweenWords | frontend/components/modal/OfferDetailsModal.jsx:30 | the dash between two words is the one replaced |
| OfferDetails.SecondDashKept | frontend/components/modal/OfferDetailsModal.jsx:30 | `a-b-c` becomes `A/B-C` |
| OfferDetails.StatusBadgeClass | frontend/components/modal/OfferDetailsModal.jsx:17-27 | approved and rejected get their own class; anything else gets `status-pending` |
| OfferDetails.StatusLabel | frontend/components/modal/OfferDetailsModal.jsx:51 | the first character is upper-cased and the rest kept |
| OfferDetails.StatusLabelOf | frontend/components/modal/OfferDetailsModal.jsx:51 | a status with a lower-case initial, such as `pending`, shows as `Pending` |
| OfferDetails.DonorLabel | frontend/components/modal/OfferDetailsModal.jsx:57 | `Anonymous` when anonymous, otherwise the donor name or `N/A` |
| OfferDetails.AnonymousHidesName | frontend/components/modal/OfferDetailsModal.jsx:57 | an anonymous offer never shows the donor's name; a named one does |
| ContributorDetails.TypeLabel | frontend/components/modal/ContributorDetailsModal.jsx:16-27 | the three known types get a label; any other value passes through |
| ContributorDetails.TypeLabelsDistinct | frontend/components/modal/ContributorDetailsModal.jsx:16-27 | the known types get different labels |
| ContributorDetails.StatusClass | frontend/components/modal/ContributorDetailsModal.jsx:29-42 | a known status names its own class, and anything else is `pending` |
| ContributorDetails.StatusClassLaws | frontend/components/modal/ContributorDetailsModal.jsx:29-42 | a record the schema accepts shows its own status, and the mapping is idempotent |
| ContributorDetails.AttendedClass | frontend/components/modal/ContributorDetailsModal.jsx:44-53 | `yes` maps to attended, `no` to not-attended, anything else to pending |
| ContributorDetails.DeliveryBadge | frontend/components/modal/ContributorDetailsModal.jsx:140-141 | `Delivered` iff `resourcesDelivered` is `delivered`; otherwise pending and `Not Delivered` |
| ContributorDetails.MarkShows | frontend/components/modal/ContributorDetailsModal.jsx:44-141 | after the creator's mark, the view shows attended or delivered |

## Left out

- M-Pesa HTTP calls: the token fetch, the STK push POST and the password derivation are foreign calls. The provider is a parameter that returns a `CheckoutRequestID` or fails.
- E-mail sending: a send is I/O, and its failure changes nothing stored, so it is omitted.
- JWT and bcrypt: identity is an `Auth` value. `requireAdmin` is taken as passed for the admin endpoints.
- Multer uploads: the uploaded file is an optional file name, and the `Images only!` filter is not modelled. The rate limiters are not modelled either.
- Concurrency: each handler is one atomic step. The read-then-save races in the callback and in join are not modelled.
- Floating point: amounts are integers. `parseFloat` is read up to its integer part, and `Math.round` and `toLocaleString` are left out.
- The clock and date parsing: `new Date()`, `Date.parse` and `new Date(v)` are parameters, and dates are integer milliseconds.
- `JSON.parse` covers integers only: fractions and exponents are refused. A `\u` escape naming a lone surrogate, such as `"\uD800"`, is refused as well, though `JSON.parse` accepts it. An object with a repeated key keeps every copy, and property lookup reads the first; `JSON.parse` keeps the last.
- Case mapping covers ASCII letters only. Trimming and `\s` use the full white-space and line-terminator set of ECMA-262.
- Pagination, sorting other than the recent list, and `populate` projections are not modelled. MongoDB leaves the order of equal `updatedAt` values open. The model puts the earlier stored record first, and no contract states that order.
- ObjectId casting: ids are strings or naturals. The 500 from a malformed id is not modelled.
- The read-only endpoints other than the public listing and the donation stats are not modelled. The project creation handler is modelled through its validator, its sanitiser and `NewProject` only.
- The modals' rendering, fetch plumbing, alerts, timers and `formatDate` are not modelled. Neither are ContributorDetailsModal's `user?.name || 'N/A'` display lines.
- ProjectEventForm.ChooseFile: the `FileReader` preview is not modelled.
- Profiles.Merge: it uses the corrected skills rule, `SkillsIntended`, not the code as written; see Findings.
- OfferDetails.StatusLabelOf: the labels of the three stored statuses follow from this general law. There is no lemma per literal status.
- DonationStats.RecentDonations: the amount is kept as a number, not as the `Ksh` text.
- RegistrationVerdict: some `length` values are read as `NaN` here, where JavaScript reads them as numbers: a string holding a fraction, an exponent or `Infinity`. An object `length` whose own `toString`/`valueOf` would give a number is also read as `NaN`.
- Donations.CastOperator: `$regex`, `$options`, `$not`, `$all`, `$type` and the other operators a String path accepts are read as throwing. The source obeys them too. Only the nine operators listed are modelled.
- Donations.CastFilter: an operator object holding one key twice gives one condition per copy. `JSON.parse` keeps only the last copy.
- Donations.DonationStore.HandleCallback: it follows the code as written, with the operator filter; see Findings.
- SiteSettings.CastCount: a string holding a fraction, an exponent or `Infinity` is treated as a failed cast. Mongoose stores the number.

## Findings

| source | as written | input that shows it | evidently intended | confidence | as-written member | corrected member |
|---|---|---|---|---|---|---|
| backend/server.js:1922-1925 | the callback route passes the raw `CheckoutRequestID` of an unauthenticated request into the query filter, so an object is read as query operators | `{"Body":{"stkCallback":{"CheckoutRequestID":{"$ne":""},"ResultCode":1}}}` marks the first pending donation failed, whatever its checkout id | use the id only when it is a string | not executed | Donations.OperatorIdFailsAny | Donations.StrictTouchesOnlyNamed |
| backend/server.js:1913-1925 | a callback without `CheckoutRequestID` is not refused: Mongoose drops the `undefined` key, so the query is `{status: 'pending'}` | `{"Body":{"stkCallback":{"ResultCode":1}}}` marks the first pending donation failed, whoever made it | use the id only when it is a string | not executed | Donations.MissingIdSettlesFirst | Donations.StrictTouchesOnlyNamed |
| backend/server.js:286 | the handler keeps the stored skills unless `skills` is an array, but the profile form (frontend/components/modal/ProfileUpdateModal.jsx:92-93) sends it as a `JSON.stringify` string, which is never an array | a user with no skills adds `Teaching` and saves; the stored skills stay `[]` | parse a string holding a JSON array, as the project handler does for `sdgs` (backend/server.js:895) | not executed | Profiles.SkillsEditLost | Profiles.SkillsEditKept |
