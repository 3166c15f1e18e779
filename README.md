# Building management back office, modelled in Dafny

The back office is a Spring application for renting out real estate. Administrators
keep a catalogue of properties and users. Customers log in, ask to rent properties
(solicitations), sign rental contracts and write reviews. Administrators can put a
percentage offer on a property. The service layer keeps six tables in step:
properties, contracts, offers, solicitations, reviews and users. Two rules tie the
tables together:

- a contract marks its property as rented, and deleting the contract releases it;
- an offer sets the discounted price of its property, and deleting the offer restores the initial price.

Each table has a builder between its entity and its data-transfer object (DTO). A
contract can be exported as labelled text or as CSV.

The model has three layers:

- `Repositories.Database` is a class holding one id-keyed map of rows per table.
  Foreign keys are ids.
- Every state-changing service operation is a method on that store with a `modifies`
  frame. The getters are functions that read it.
  - An operation either returns `Ok` and makes its change, or returns `Err` and changes
    nothing. Errors carry the exception kind and its message (`Common.Error`).
  - The session user, the current time and the id a save would generate are parameters.
    `Repositories.HttpSession` is the session the login methods update.
- The builders are functions on recursive entity datatypes (`Entities`). The exporters
  are methods that append to a `Rendering.TextBuffer`.

The link "a property is rented exactly when a contract rents it, and no property has
two contracts" is `Repositories.RentalConsistent`. Creating, updating and deleting a
contract are proved to keep it, and so is deleting a property with the contract that
cascades with it. The property update does not keep it. For the user delete the model
leaves the contract table alone, because the user's mapping is not part of it: with the
contracts kept the link breaks, with the contracts dropped alongside the user it holds.

All source paths below are relative to
`BuildingManagement/src/main/java/com/projectps/buildingmanagement/`. In the table
they are written out in full.

## Model

| member | source | states |
|---|---|---|
| Repositories.ContractsOfUserUpdates | BuildingManagement/src/main/java/com/projectps/buildingmanagement/repositories/ContractRepository.java:13-14 | `findByUserId`: every stored contract is found under its own user and two users never share one; saving a contract adds it exactly to its user's set, deleting it removes it, and no other membership changes |
| Repositories.SolicitationsOfUpdates | BuildingManagement/src/main/java/com/projectps/buildingmanagement/repositories/SolicitationRepository.java:15 | `findByUserIdAndPropertyId`: every stored solicitation is found under its own user and property; saving one adds it exactly to its pair's set, deleting it removes it, and nothing else changes |
| Repositories.UsersNamedUpdates | BuildingManagement/src/main/java/com/projectps/buildingmanagement/services/UserService.java:124 | `findByUsername`: each stored user with a username is found under that name and under no other; saving a user moves it to its new name's set, deleting it removes it, and no other membership changes |
| ContractService.CheckStartDate | BuildingManagement/src/main/java/com/projectps/buildingmanagement/services/ContractService.java:132-142 | no rejection iff the start date is present and not before now (equal to now passes); an absent date gives "Start date not valid"; an earlier date gives "Start date cannot be in the past" |
| ContractService.GetAllContractsCustomer | BuildingManagement/src/main/java/com/projectps/buildingmanagement/services/ContractService.java:72-82 | no session user gives a null dereference; otherwise the result holds exactly the DTOs of the session user's stored contracts |
| ContractService.GetContractById | BuildingManagement/src/main/java/com/projectps/buildingmanagement/services/ContractService.java:91-99 | `Ok` iff the id is stored, with that contract's DTO; otherwise ContractNotFound |
| ContractService.GetContractByIdCustomer | BuildingManagement/src/main/java/com/projectps/buildingmanagement/services/ContractService.java:109-118 | with a session user: `Ok` iff the contract exists and belongs to that user, and then the same DTO as the admin lookup; otherwise ContractNotFound |
| ContractService.CreateContract | BuildingManagement/src/main/java/com/projectps/buildingmanagement/services/ContractService.java:129-169 | checks in order: dates, then unknown user, then unknown property, then "Property is already rented!". `Ok` iff all four pass. On error neither table changes. On success one contract is added under the new id, the property becomes rented, nothing else changes, and the rental link is kept |
| ContractService.UpdateContract | BuildingManagement/src/main/java/com/projectps/buildingmanagement/services/ContractService.java:180-210 | checks the dates before existence. On success only start date, duration and details change; both links and every property stay; the rental link is kept |
| ContractService.DeleteContract | BuildingManagement/src/main/java/com/projectps/buildingmanagement/services/ContractService.java:219-236 | `Ok` iff the contract exists. On success the contract is removed and its property, if still stored, is no longer rented; a missing property is no error; the rental link is kept |
| Repositories.RentedPropertyHasOneContract | BuildingManagement/src/main/java/com/projectps/buildingmanagement/services/ContractService.java:151-168 | under the rental link (`RentalConsistent`, built on `HasContract`) a stored property is rented iff exactly one contract links it |
| ContractService.CreateKeepsRentalConsistent | BuildingManagement/src/main/java/com/projectps/buildingmanagement/services/ContractService.java:151-168 | renting a stored, unrented property under a new contract id keeps "rented iff a contract exists, at most one contract per property" |
| ContractService.UpdateKeepsRentalConsistent | BuildingManagement/src/main/java/com/projectps/buildingmanagement/services/ContractService.java:196-205 | a contract update that keeps the property link keeps the rental link |
| ContractService.DeleteKeepsRentalConsistent | BuildingManagement/src/main/java/com/projectps/buildingmanagement/services/ContractService.java:219-235 | removing a contract and releasing its property keeps the rental link |
| ContractService.CreateThenDeleteContract | BuildingManagement/src/main/java/com/projectps/buildingmanagement/services/ContractService.java:158-168 | a successful create followed by a delete of the new contract leaves the contract table as before and the property not rented |
| OfferService.Discounted | BuildingManagement/src/main/java/com/projectps/buildingmanagement/services/OfferService.java:83 | the price is `initial * (1 - p/100)`; for 0 <= p <= 100 and a positive initial price it lies in [0, initial]; p = 0 keeps the price and p = 100 gives 0 |
| OfferService.WithdrawUndoesOffer | BuildingManagement/src/main/java/com/projectps/buildingmanagement/services/OfferService.java:85-86 | withdrawing an offer after applying one gives the initial price and no offer, whatever the percentage |
| OfferService.GetOfferById | BuildingManagement/src/main/java/com/projectps/buildingmanagement/services/OfferService.java:58-65 | `Ok` iff the offer is stored, with its DTO; otherwise OfferNotFound |
| OfferService.CreateOffer | BuildingManagement/src/main/java/com/projectps/buildingmanagement/services/OfferService.java:74-98 | `Ok` iff the property exists; otherwise PropertyNotFound and no change. On success the offer is stored and the property gets the discounted price and the offer-applied flag |
| OfferService.UpdateOffer | BuildingManagement/src/main/java/com/projectps/buildingmanagement/services/OfferService.java:109-135 | `Ok` iff the offer exists; only its percentage changes. The property the request names (not the linked one), if stored, gets its discounted price recomputed with the offer-applied flag untouched; a missing one is skipped |
| OfferService.DeleteOffer | BuildingManagement/src/main/java/com/projectps/buildingmanagement/services/OfferService.java:144-163 | `Ok` iff the offer exists. On success the offer is removed and its property, if stored, returns to its initial price without an offer |
| OfferService.CreateThenDeleteOffer | BuildingManagement/src/main/java/com/projectps/buildingmanagement/services/OfferService.java:85-86 | create followed by delete restores the offer table; the property ends at its initial price with the offer-applied flag off |
| SolicitationService.DoesSolicitationExist | BuildingManagement/src/main/java/com/projectps/buildingmanagement/services/SolicitationService.java:130-133 | true iff some stored solicitation has that user and that property |
| SolicitationService.GetAllSolicitationsCustomer | BuildingManagement/src/main/java/com/projectps/buildingmanagement/services/SolicitationService.java:73-83 | no session user gives "Customer ID not found in session"; otherwise exactly the session user's solicitations |
| SolicitationService.GetSolicitationById | BuildingManagement/src/main/java/com/projectps/buildingmanagement/services/SolicitationService.java:92-99 | `Ok` iff the id is stored, with its DTO; otherwise SolicitationNotFound |
| SolicitationService.GetSolicitationByIdCustomer | BuildingManagement/src/main/java/com/projectps/buildingmanagement/services/SolicitationService.java:108-121 | with a session user: `Ok` iff the solicitation exists and belongs to that user; otherwise SolicitationNotFound |
| SolicitationService.CreateSolicitationCustomer | BuildingManagement/src/main/java/com/projectps/buildingmanagement/services/SolicitationService.java:141-180 | checks in order: no session user, then a repeated (user, property) pair, then an unknown property, then a rented property, each with its message. On error nothing is stored. On success the stored row has date now and the session user, whatever the request carried, and the pair now exists |
| SolicitationService.DeleteSolicitationAdmin | BuildingManagement/src/main/java/com/projectps/buildingmanagement/services/SolicitationService.java:188-196 | `Ok` iff stored; removes exactly that row, else SolicitationNotFound and no change |
| SolicitationService.DeleteSolicitationCustomer | BuildingManagement/src/main/java/com/projectps/buildingmanagement/services/SolicitationService.java:204-218 | no session user gives "User not logged in". `Ok` iff the solicitation is the session user's, and then it is removed; otherwise SolicitationNotFound and no change |
| SolicitationService.SolicitTwice | BuildingManagement/src/main/java/com/projectps/buildingmanagement/services/SolicitationService.java:153-156 | after a successful request, the identical second request is refused as a repeat and the table has grown by exactly one |
| SolicitationService.SolicitTwoProperties | BuildingManagement/src/main/java/com/projectps/buildingmanagement/services/SolicitationService.java:130-133 | dedup is per (user, property) pair: one user asking for two different available, unrequested properties succeeds twice |
| ReviewService.GetAllReviewsCustomer | BuildingManagement/src/main/java/com/projectps/buildingmanagement/services/ReviewService.java:68-78 | no session user gives "Customer ID not found in session"; otherwise exactly the session user's reviews |
| ReviewService.GetReviewById | BuildingManagement/src/main/java/com/projectps/buildingmanagement/services/ReviewService.java:87-94 | `Ok` iff the review is stored; otherwise ReviewNotFound |
| ReviewService.GetReviewByIdCustomer | BuildingManagement/src/main/java/com/projectps/buildingmanagement/services/ReviewService.java:103-117 | with a session user: `Ok` iff the review exists and is that user's; otherwise ReviewNotFound |
| ReviewService.CreateReview | BuildingManagement/src/main/java/com/projectps/buildingmanagement/services/ReviewService.java:125-134 | `Ok` iff the named user exists; otherwise the empty `Optional` is unwrapped and nothing is stored. On success the review is stored as given |
| ReviewService.CreateReviewCustomer | BuildingManagement/src/main/java/com/projectps/buildingmanagement/services/ReviewService.java:142-160 | `Ok` iff there is a session user. The stored review is dated now and written by the session user; on error nothing is stored |
| ReviewService.UpdateReview | BuildingManagement/src/main/java/com/projectps/buildingmanagement/services/ReviewService.java:170-189 | `Ok` iff the review exists. Message and date are replaced; the author changes only when the request's user exists |
| ReviewService.UpdateReviewCustomer | BuildingManagement/src/main/java/com/projectps/buildingmanagement/services/ReviewService.java:199-227 | checks existence, then an absent date, then a past date, each with its error; on success only date and message change |
| ReviewService.DeleteReview | BuildingManagement/src/main/java/com/projectps/buildingmanagement/services/ReviewService.java:235-242 | `Ok` iff stored; removes exactly that row, else ReviewNotFound and no change |
| ReviewService.DeleteReviewCustomer | BuildingManagement/src/main/java/com/projectps/buildingmanagement/services/ReviewService.java:250-264 | no session user gives "User not logged in". `Ok` iff the review is the session user's, and then it is removed; otherwise ReviewNotFound and no change |
| PropertyService.CoordinateBoundsInclusive | BuildingManagement/src/main/java/com/projectps/buildingmanagement/services/PropertyService.java:206-218 | `IsValidLatitude` and `IsValidLongitude`: ±90 and ±180 are accepted; anything beyond them is refused |
| PropertyService.CreatePropertyError | BuildingManagement/src/main/java/com/projectps/buildingmanagement/services/PropertyService.java:80-98 | no rejection iff location present and at most 50 characters, rooms > 0, price > 0 and coordinates valid; otherwise the first broken rule in that order, with its message |
| PropertyService.CreatedRow | BuildingManagement/src/main/java/com/projectps/buildingmanagement/services/PropertyService.java:100-110 | without a contract the row is not rented; without an offer it keeps the initial price and has no offer applied; every other column is the request's |
| PropertyService.CreateProperty | BuildingManagement/src/main/java/com/projectps/buildingmanagement/services/PropertyService.java:78-116 | `Err` iff a rule is broken, with that rule's error and no change; otherwise exactly one row is added |
| PropertyService.RoomsTextIsDigitsIff | BuildingManagement/src/main/java/com/projectps/buildingmanagement/services/PropertyService.java:139-146 | the rooms digit check fails exactly for negative counts |
| PropertyService.PriceCheckRefusesValidPrices | BuildingManagement/src/main/java/com/projectps/buildingmanagement/services/PropertyService.java:148-151 | the price text check as written refuses the positive prices 10^7 and 10^-4 |
| PropertyService.UpdatePropertyError | BuildingManagement/src/main/java/com/projectps/buildingmanagement/services/PropertyService.java:134-160 | no rejection iff location absent or at most 50 characters, rooms > 0, the price passes the given format check and is > 0, and coordinates valid; the broken rules come in source order with their messages |
| PropertyService.UpdatePriceRules | BuildingManagement/src/main/java/com/projectps/buildingmanagement/services/PropertyService.java:148-155 | with the intended check the price rules pass iff the price is positive; with the check as written a request valid in every field but priced at ten million is refused |
| PropertyService.UpdatedRow | BuildingManagement/src/main/java/com/projectps/buildingmanagement/services/PropertyService.java:162-174 | the request's location, coordinates, rooms, price, both flags, type and status are taken; the image only when non-empty; the discounted price is kept |
| PropertyService.UpdateProperty | BuildingManagement/src/main/java/com/projectps/buildingmanagement/services/PropertyService.java:126-182 | with the price format check as a parameter (the code as written is `UpdateProperty(.., PriceTextIsDecimalAsWritten)`, the intended code passes `PriceIsNumeric`): PropertyNotFound before any rule; then `Err` iff a rule is broken, with that rule's error and no change; on success the row becomes the updated row |
| PropertyService.UpdateRefusesTenMillion | BuildingManagement/src/main/java/com/projectps/buildingmanagement/services/PropertyService.java:148-151 | as written, an update valid in every field but priced at ten million is refused with the price message and changes nothing |
| PropertyService.UpdateCanBreakRentalLink | BuildingManagement/src/main/java/com/projectps/buildingmanagement/services/PropertyService.java:167 | an update with `rented` set on a property with no contract breaks the rental link |
| PropertyService.DeleteProperty | BuildingManagement/src/main/java/com/projectps/buildingmanagement/services/PropertyService.java:190-198 | `Ok` iff stored; removes that row and, through the cascades of `entities/Property.java:55-62`, the contracts, offers and solicitations linked to it, leaving every other row as it was; else PropertyNotFound and no change |
| PropertyService.DeletePropertyKeepsRentalConsistent | BuildingManagement/src/main/java/com/projectps/buildingmanagement/entities/Property.java:55-62 | deleting a property together with its cascaded contract keeps the rental link |
| PropertyService.GetAllPropertiesCustomer | BuildingManagement/src/main/java/com/projectps/buildingmanagement/services/PropertyService.java:48-54 | a DTO is in the result iff it is the DTO of an unrented property of the listing; every result is not rented |
| PropertyService.AvailableKeepsOrder | BuildingManagement/src/main/java/com/projectps/buildingmanagement/services/PropertyService.java:50-53 | the filter keeps the listing's order: filtering a concatenation concatenates the filtered parts |
| UserService.AllChars | BuildingManagement/src/main/java/com/projectps/buildingmanagement/services/UserService.java:310 | the character-class scan holds iff every character is in the class |
| UserService.IsValidName | BuildingManagement/src/main/java/com/projectps/buildingmanagement/services/UserService.java:309-311 | valid iff present, 1 to 30 characters, all ASCII letters |
| UserService.CredentialRules | BuildingManagement/src/main/java/com/projectps/buildingmanagement/services/UserService.java:319-331 | a username or password is valid iff present and at most 30 characters: the empty string passes, 31 characters do not, and the characters are not checked |
| UserService.IsValidPhoneNumber | BuildingManagement/src/main/java/com/projectps/buildingmanagement/services/UserService.java:349-352 | valid iff present, 12 characters, starting "+40", then nine digits |
| UserService.PhoneNumberShape | BuildingManagement/src/main/java/com/projectps/buildingmanagement/services/UserService.java:350 | valid iff the string is "+40" followed by some nine digits |
| UserService.IsValidEmail | BuildingManagement/src/main/java/com/projectps/buildingmanagement/services/UserService.java:38 | valid iff present and in the pattern's language: a non-empty local part over `[a-zA-Z0-9._%+-]`, "@", a non-empty domain over `[a-zA-Z0-9.-]`, ".", and at least two letters |
| UserService.EmailScanMatchesPattern | BuildingManagement/src/main/java/com/projectps/buildingmanagement/services/UserService.java:339-341 | splitting at the first "@" and the last "." finds a split iff any split into the pattern's parts exists |
| UserService.UserValidationError | BuildingManagement/src/main/java/com/projectps/buildingmanagement/services/UserService.java:197-215 | no rejection iff all six field rules hold; otherwise the first rule group broken, in the order names, username and password, email, phone, with its message |
| UserService.CreateUser | BuildingManagement/src/main/java/com/projectps/buildingmanagement/services/UserService.java:196-222 | `Err` iff a field rule is broken, with that error, and nothing stored; on success the user is stored under the new id and the result is the request with that id |
| UserService.UpdateUser | BuildingManagement/src/main/java/com/projectps/buildingmanagement/services/UserService.java:232-275 | UserNotFound before the field rules; on error no change; on success exactly the seven profile and role fields are replaced |
| UserService.RentedByAreRented | BuildingManagement/src/main/java/com/projectps/buildingmanagement/services/UserService.java:294-296 | under the rental link every stored property that one of the user's contracts links is rented, and no property is rented by two different users |
| UserService.ClearRented | BuildingManagement/src/main/java/com/projectps/buildingmanagement/services/UserService.java:296-300 | same keys; a property is rented afterwards iff it was and is not in the set; no other column changes |
| UserService.DeleteUser | BuildingManagement/src/main/java/com/projectps/buildingmanagement/services/UserService.java:283-301 | `Ok` iff the user exists. On success the user is removed and the rented flag is cleared on exactly the properties of the user's contracts; the contract table is not touched by the model (see Left out). On error no change |
| UserService.DeleteUserBreaksRentalLink | BuildingManagement/src/main/java/com/projectps/buildingmanagement/services/UserService.java:294-300 | if the store kept a deleted user's contracts, clearing the rented flags would break the rental link; a consequence of the model keeping the contracts, not a shown behaviour of `deleteUser` |
| UserService.CascadedUserDeleteKeepsRentalLink | BuildingManagement/src/main/java/com/projectps/buildingmanagement/services/UserService.java:292-300 | if the user's contracts go with the user, the un-renting loop keeps the rental link |
| UserService.Login | BuildingManagement/src/main/java/com/projectps/buildingmanagement/services/UserService.java:122-144 | an unknown username gives UserNotFound; several matches give IncorrectResultSize; a wrong password gives "Incorrect password or username". `Ok` iff exactly one user has the name and the password matches. On success the session holds that user's DTO; on error the session is unchanged |
| UserService.Logout | BuildingManagement/src/main/java/com/projectps/buildingmanagement/services/UserService.java:149-151 | the session holds no user |
| UserService.LoginThenLogout | BuildingManagement/src/main/java/com/projectps/buildingmanagement/services/UserService.java:122-160 | after a successful login `getLoggedInUser` (`GetLoggedInUser`) returns that user's DTO; after logout it returns none |
| ContractBuilder.ToEntity | BuildingManagement/src/main/java/com/projectps/buildingmanagement/dtos/builders/ContractBuilder.java:22-34 | the entity links stubs carrying only the DTO's user and property ids; mapping it back with `ToContractDto` gives the DTO |
| ContractBuilder.EntityRoundTrip | BuildingManagement/src/main/java/com/projectps/buildingmanagement/dtos/builders/ContractBuilder.java:10-34 | entity to DTO to entity keeps the scalar fields and both linked ids, and replaces the linked records by stubs |
| OfferBuilder.ToEntity | BuildingManagement/src/main/java/com/projectps/buildingmanagement/dtos/builders/OfferBuider.java:17-25 | the entity links a property stub carrying only property_id; mapping it back with `ToOfferDto` gives the DTO |
| OfferBuilder.EntityRoundTrip | BuildingManagement/src/main/java/com/projectps/buildingmanagement/dtos/builders/OfferBuider.java:9-25 | entity to DTO to entity keeps id, percentage and the linked property id |
| SolicitationBuilder.ToEntity | BuildingManagement/src/main/java/com/projectps/buildingmanagement/dtos/builders/SolicitationBuilder.java:20-30 | the entity links user and property stubs carrying only their ids; mapping it back with `ToSolicitationDto` gives the DTO |
| SolicitationBuilder.EntityRoundTrip | BuildingManagement/src/main/java/com/projectps/buildingmanagement/dtos/builders/SolicitationBuilder.java:10-30 | entity to DTO to entity keeps id, date and both linked ids |
| ReviewBuilder.ToEntity | BuildingManagement/src/main/java/com/projectps/buildingmanagement/dtos/builders/ReviewBuilder.java:18-27 | the entity links a user stub carrying only user_id; mapping it back with `ToReviewDto` gives the DTO |
| ReviewBuilder.EntityRoundTrip | BuildingManagement/src/main/java/com/projectps/buildingmanagement/dtos/builders/ReviewBuilder.java:9-27 | entity to DTO to entity keeps id, message, date and the user id |
| PropertyBuilder.ToEntity | BuildingManagement/src/main/java/com/projectps/buildingmanagement/dtos/builders/PropertyBuilder.java:34-51 | the entity never links a contract, offer or solicitation; mapping it back with `ToPropertyDto` gives the DTO with those three absent |
| PropertyBuilder.NestedDtos | BuildingManagement/src/main/java/com/projectps/buildingmanagement/dtos/builders/PropertyBuilder.java:23-31 | a nested DTO is present iff the entity links the record, and it is that record's builder output |
| UserBuilder.ListsRoundTrip | BuildingManagement/src/main/java/com/projectps/buildingmanagement/dtos/builders/UserBuilder.java:18-51 | each of the three nested DTO lists turned into entities and back is the list itself |
| UserBuilder.DtoListsKeepOrder | BuildingManagement/src/main/java/com/projectps/buildingmanagement/dtos/builders/UserBuilder.java:18-26 | the entity-to-DTO list mappings keep order: a concatenation maps to the concatenation of the mapped parts |
| UserBuilder.EntityListsKeepOrder | BuildingManagement/src/main/java/com/projectps/buildingmanagement/dtos/builders/UserBuilder.java:43-51 | the DTO-to-entity list mappings keep order in the same way |
| UserBuilder.ToUserDtoFields | BuildingManagement/src/main/java/com/projectps/buildingmanagement/dtos/builders/UserBuilder.java:17-40 | `toUserDTO` (`ToUserDto`) copies the eight profile fields and maps the three lists element-wise |
| UserBuilder.ToEntityFields | BuildingManagement/src/main/java/com/projectps/buildingmanagement/dtos/builders/UserBuilder.java:42-65 | `toEntity` (`ToEntity`) does the same in the other direction |
| UserBuilder.DtoRoundTrip | BuildingManagement/src/main/java/com/projectps/buildingmanagement/dtos/builders/UserBuilder.java:17-65 | DTO to entity to DTO is the identity, nested lists included |
| UserBuilder.EntityRoundTrip | BuildingManagement/src/main/java/com/projectps/buildingmanagement/dtos/builders/UserBuilder.java:17-65 | entity to DTO to entity keeps the profile fields and list lengths; each contract comes back with stub links carrying its ids |
| Rendering.FieldsWithout | BuildingManagement/src/main/java/com/projectps/buildingmanagement/files/TxtFileGenerator.java:12-17 | when identifiers and dates render without a comma or line break, only the details field can hold one |
| Rendering.TextBuffer.Append | BuildingManagement/src/main/java/com/projectps/buildingmanagement/files/TxtFileGenerator.java:12 | the buffer's text grows by exactly the appended string |
| TxtFileGenerator.GenerateFile | BuildingManagement/src/main/java/com/projectps/buildingmanagement/files/TxtFileGenerator.java:9-19 | the bytes are exactly the six labelled lines in order |
| TxtFileGenerator.ContentIsSixLines | BuildingManagement/src/main/java/com/projectps/buildingmanagement/files/TxtFileGenerator.java:12-17 | the output is the six lines, each followed by a line break |
| TxtFileGenerator.TerminatedIsJoin | BuildingManagement/src/main/java/com/projectps/buildingmanagement/files/TxtFileGenerator.java:12-17 | lines each followed by a break are the lines joined by breaks with an empty last part |
| TxtFileGenerator.SplitIntoLines | BuildingManagement/src/main/java/com/projectps/buildingmanagement/files/TxtFileGenerator.java:12-17 | with no line break in the details or renderings, splitting the output at line breaks gives back the six lines, and there are exactly six breaks |
| TxtFileGenerator.ContentLength | BuildingManagement/src/main/java/com/projectps/buildingmanagement/files/TxtFileGenerator.java:11-18 | output length is the label lengths plus the field lengths plus 6 |
| CsvFileGenerator.GenerateFile | BuildingManagement/src/main/java/com/projectps/buildingmanagement/files/CsvFileGenerator.java:15-36 | the bytes are the header followed by the data row |
| CsvFileGenerator.HeaderNamesColumns | BuildingManagement/src/main/java/com/projectps/buildingmanagement/files/CsvFileGenerator.java:20 | the header is the six column names joined by commas, then a line break |
| CsvFileGenerator.HeaderSplitsIntoColumns | BuildingManagement/src/main/java/com/projectps/buildingmanagement/files/CsvFileGenerator.java:20 | splitting the header line at commas gives the six column names |
| CsvFileGenerator.LabelsMatchColumns | BuildingManagement/src/main/java/com/projectps/buildingmanagement/files/CsvFileGenerator.java:20-26 | column i of the header names field i of the row, the same field the text export labels i |
| CsvFileGenerator.RowIsJoin | BuildingManagement/src/main/java/com/projectps/buildingmanagement/files/CsvFileGenerator.java:21-26 | the row is the six fields joined by commas, then a line break |
| CsvFileGenerator.RowRoundTrip | BuildingManagement/src/main/java/com/projectps/buildingmanagement/files/CsvFileGenerator.java:21-26 | with no comma in the details or renderings, splitting the row at commas gives back the six fields |
| CsvFileGenerator.RowCellCount | BuildingManagement/src/main/java/com/projectps/buildingmanagement/files/CsvFileGenerator.java:21-26 | there is no quoting: the row splits into 6 plus the number of commas in the details cells, so exactly 6 iff the details have no comma |
| Strings.SplitJoin | BuildingManagement/src/main/java/com/projectps/buildingmanagement/files/CsvFileGenerator.java:21-26 | splitting a join of separator-free parts gives the parts back |
| Strings.NatToStringValue | BuildingManagement/src/main/java/com/projectps/buildingmanagement/files/TxtFileGenerator.java:14 | the decimal rendering of a number reads back as that number |

## Left out

- `UserService.sendEmailToUser` is not modelled: it is a network call.
- The controllers are not modelled: they do HTTP routing and page building.
- `PdfFileGenerator` is not modelled: it wraps a PDF library.
- The admin "get all" listings are not modelled, except `getAllPropertiesCustomer`.
- Prices, percentages and coordinates are exact reals; `float`/`double` rounding is not modelled.
- Identifiers and times are abstract values. Their `toString` renderings are parameters (`Rendering.Renderer`), and so are `LocalDateTime.now()` and the ids a save generates.
- Create methods store under the new id and ignore the id in the request.
- The `getBytes()` default encoding, the CSV writer's charset and the `null` return on `IOException` are not modelled. An export is its text.
- Lengths count characters of `seq<char>`, not UTF-16 code units.
- JPA mechanics are not modelled: lazy loading, database constraints, cascades other than the property delete's. Multi-step saves are atomic in the model.
- A `findBy…` that returns a list is a set of ids, so result order is not modelled. `getAllPropertiesCustomer` works on the `findAll` list and keeps its order.
- Concurrent requests are not modelled.
- `entities/User.java` and `UserRepository` are not part of this model. The user row is taken from `UserDTO` and the builder, and `findByUsername` is a lookup by username.
- Repositories.PropertyView: the property DTO returned by a store operation has no nested contract, offer or solicitation DTO.
- Repositories.UserView: the user DTO returned by `updateUser` and `login`, and put in the session, has empty contract, review and solicitation lists. The source loads them from the entity.
- UserService.DeleteUser: the model keeps the user's contracts, reviews and solicitations. Their `user_id` columns are foreign keys (`entities/Contract.java:31-33`, `entities/Review.java:28-30`, `entities/Solicitation.java:25-27`), and the user entity's mapping is not part of this model. So the real delete either cascades to those rows or fails at `deleteById` before any property is touched; neither outcome is modelled. `CascadedUserDeleteKeepsRentalLink` covers the cascading reading.
- PropertyService.DeleteProperty: every contract, offer and solicitation whose property id is the deleted one is removed. Each cascading link is a one-to-one field holding a single row; the model and the source agree whenever a property has at most one row of each kind. What the source does with several is not modelled.
- UserService.DeleteUser: the model works from the contract table. A contract whose property is no longer stored is skipped, where the source would follow a dangling reference.
- UserService.Login: username and password are non-null strings. A stored user without a password gives `NullReference`.
- Ids inside request DTOs (`user_id` and `property_id` of contract, offer, solicitation and review requests) are never `null` (`Uuid` is not nullable). The source's `findById(null)` would throw before any not-found branch; the model has no such request.
- A session user always has an id (`Uuid` is not nullable), so the branches for a session user with a `null` id cannot arise.
- Session-less reads that dereference a missing user are `NullReference`.
- Latitude and longitude are never `null` (the source's `Double` may be).
- `PropertyType` and `PropertyStatus` are opaque ordinals.
- `duration` is an unbounded integer; Java `int` has 32 bits, but the exporters only print it.
- UserService.UserValidationError: the messages say "less than 20 characters" while the rules allow 30. The model follows the code.
- The phone and email patterns are modelled over ASCII classes, as Java's `\d` and `[a-z]` are by default.
- PropertyService.PriceTextIsDecimalAsWritten: `Float.toString` is described by its plain-decimal range (zero, and magnitudes in [10^-3, 10^7)) rather than modelled digit by digit.

## Findings

| source | as written | input that shows it | evidently intended | confidence | as-written member | corrected member |
|---|---|---|---|---|---|---|
| BuildingManagement/src/main/java/com/projectps/buildingmanagement/services/PropertyService.java:148-151 | `updateProperty` checks the price with `String.valueOf(price).matches("\\d+(\\.\\d+)?")`. `Float.toString` switches to scientific notation (`1.0E7`, `1.0E-4`) for magnitudes of 10^7 and more or below 10^-3, so the pattern refuses those prices | a property update with initial price 10000000 (or 0.0001) and every other field valid is refused with "Initial price must be numeric and greater than 0." | every non-negative price passes the format check, leaving the "greater than 0" rule to decide | high; not executed | PropertyService.PriceCheckRefusesValidPrices | PropertyService.UpdatePriceRules |
