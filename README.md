# MyHome service core, modelled in Dafny

MyHome is a Spring service for housing communities. Communities have admins and houses, and houses have members. Admins schedule payments for members, and users sign up, log in and reset passwords. This project models the decision logic inside that REST plumbing:

- the per-request authorization filter, which turns a prefixed header into the security context's authentication;
- payment scheduling: who may schedule a payment for whom, and how the request is enriched with the admin's and the member's details;
- how each controller (community, house, user, amenity, authentication, payment) turns its service's answers into HTTP statuses and bodies;
- the user-details lookup of the security layer;
- the e-mail template configuration, and `PageInfo.of`.

Services, repositories, the token decoder and the generated mapper methods are abstract. They are either function-valued parameters (records of functions per service) or, where the call itself matters, small classes that record their calls. "Service X is not called" is stated as independence: the answer is the same whatever X would return. A Java call either returns or raises, so it becomes a `Result`. A null becomes `Option`. A `ResponseEntity` is a status plus an optional body.

Files:
- `wrappers.dfy`: Option/Result and the `Optional` operations.
- `strings.dfy`: `startsWith`, `endsWith`, and `String.replace(p, "")`.
- `http.dfy`: statuses, responses and exceptions.
- `paging.dfy`: pages and `PageInfo`.
- `domain.dfy`: entities and DTOs.
- One file per core class: `authorization_filter.dfy`, `schedule_payment_api_mapper.dfy`, `payment_controller.dfy`, `community_controller.dfy`, `house_controller.dfy`, `user_controller.dfy`, `amenity_controller.dfy`, `authentication_controller.dfy`, `app_user_details_service.dfy`, `email_template_config.dfy`.

## Model

| member | source | states |
|---|---|---|
| AuthorizationFilter.HttpRequest.GetHeader | service/src/main/java/com/myhome/security/MyHomeAuthorizationFilter.java:88 | the header value is present exactly when the request carries that header, and is that header's value |
| AuthorizationFilter.GetAuthentication | service/src/main/java/com/myhome/security/MyHomeAuthorizationFilter.java:118-133 | no header gives null; otherwise the decoder is called with the header stripped of every occurrence of the prefix and with the `token.secret` property; a decoder failure propagates; a null user id gives null; a user id gives a principal equal to it with null credentials and no authorities |
| AuthorizationFilter.MyHomeAuthorizationFilter.DoFilterInternal | service/src/main/java/com/myhome/security/MyHomeAuthorizationFilter.java:83-97 | header absent or not prefixed: context untouched and the chain invoked once with the old authentication; prefixed: context overwritten with the authentication (possibly null) and only then the chain invoked once; a decoder failure escapes with the chain not invoked and the context untouched; every non-raising path invokes the chain exactly once |
| AuthorizationFilter.SecurityContext.SetAuthentication | service/src/main/java/com/myhome/security/MyHomeAuthorizationFilter.java:95 | the context holds exactly the given authentication |
| AuthorizationFilter.FilterChain.DoFilter | service/src/main/java/com/myhome/security/MyHomeAuthorizationFilter.java:90 | one more invocation is recorded, seeing the context's authentication at that moment |
| AuthorizationFilter.PrefixMismatchLikeAbsent | service/src/main/java/com/myhome/security/MyHomeAuthorizationFilter.java:89-92 | a header that does not start with the prefix is treated exactly as a missing header |
| AuthorizationFilter.DecoderSeesHeaderWithoutPrefix | service/src/main/java/com/myhome/security/MyHomeAuthorizationFilter.java:125-126 | for a prefixed header the token is the rest after the leading prefix, with every further occurrence of the prefix removed too; an empty prefix leaves the header as it is |
| AuthorizationFilter.BearerHeaderAuthenticates | service/src/main/java/com/myhome/security/MyHomeAuthorizationFilter.java:89-132 | a header of prefix + token (token free of the prefix) is not passed through and authenticates as the decoded user id, or as null when that id is null |
| AuthorizationFilter.AuthenticationDependsOnlyOnDecodedToken | service/src/main/java/com/myhome/security/MyHomeAuthorizationFilter.java:125-132 | two requests whose tokens decode alike get the same authentication |
| Strings.RemoveAll | service/src/main/java/com/myhome/security/MyHomeAuthorizationFilter.java:125-126 | `replace(p, "")` never lengthens the string and leaves it unchanged for an empty target |
| Strings.RemoveOccurrences | service/src/main/java/com/myhome/security/MyHomeAuthorizationFilter.java:125-126 | removing a non-empty target left to right never lengthens the string |
| Strings.RemoveAllWithoutOccurrence | service/src/main/java/com/myhome/security/MyHomeAuthorizationFilter.java:125-126 | a string without an occurrence of the target is returned unchanged |
| Strings.LeadingOccurrenceRemoved | service/src/main/java/com/myhome/security/MyHomeAuthorizationFilter.java:125-126 | a leading occurrence is dropped and removal goes on with the rest |
| Strings.RemoveAllOfPrefixed | service/src/main/java/com/myhome/security/MyHomeAuthorizationFilter.java:125-126 | prefix + token, with the token free of the prefix, yields exactly the token |
| Strings.InnerOccurrenceRemoved | service/src/main/java/com/myhome/security/MyHomeAuthorizationFilter.java:125-126 | occurrences after the first are removed as well: `"Bearer aBearer b"` becomes `"ab"` |
| Strings.RemovalCanLeaveAnOccurrence | service/src/main/java/com/myhome/security/MyHomeAuthorizationFilter.java:125-126 | one pass of removal can leave a new occurrence: `"aabb"` without `"ab"` is `"ab"` |
| SchedulePaymentApiMapper.AdminIdToAdminDto | service/src/main/java/com/myhome/controllers/mapper/SchedulePaymentApiMapper.java:58-62 | a DTO whose only non-null field is userId, equal to the id |
| SchedulePaymentApiMapper.MemberIdToMemberDto | service/src/main/java/com/myhome/controllers/mapper/SchedulePaymentApiMapper.java:75-78 | a DTO whose only non-null field is memberId, equal to the id |
| SchedulePaymentApiMapper.AdminToAdminId | service/src/main/java/com/myhome/controllers/mapper/SchedulePaymentApiMapper.java:89-92 | the user id of any DTO, null exactly when it has none; in particular on a DTO built by adminIdToAdminDto(id) it gives id back: adminToAdminId(adminIdToAdminDto(id)) == id |
| SchedulePaymentApiMapper.MemberToMemberId | service/src/main/java/com/myhome/controllers/mapper/SchedulePaymentApiMapper.java:104-107 | the member id of any DTO, null exactly when it has none; in particular on a DTO built by memberIdToMemberDto(id) it gives id back: memberToMemberId(memberIdToMemberDto(id)) == id |
| SchedulePaymentApiMapper.AdminDtoRoundTrip | service/src/main/java/com/myhome/controllers/mapper/SchedulePaymentApiMapper.java:58-92 | a DTO carrying nothing but a user id is rebuilt from its id: adminIdToAdminDto(adminToAdminId(dto)) == dto |
| SchedulePaymentApiMapper.MemberDtoRoundTrip | service/src/main/java/com/myhome/controllers/mapper/SchedulePaymentApiMapper.java:75-107 | a DTO carrying nothing but a member id is rebuilt from its id: memberIdToMemberDto(memberToMemberId(dto)) == dto |
| SchedulePaymentApiMapper.CommunityIds | service/src/main/java/com/myhome/controllers/mapper/SchedulePaymentApiMapper.java:191-194 | an id is collected iff some community of the admin has it; there are no more ids than communities |
| SchedulePaymentApiMapper.ImageSize | service/src/main/java/com/myhome/controllers/mapper/SchedulePaymentApiMapper.java:191-194 | collecting one id per community gives at most as many ids as communities |
| SchedulePaymentApiMapper.EnrichSchedulePaymentRequest | service/src/main/java/com/myhome/controllers/mapper/SchedulePaymentApiMapper.java:189-212 | type, description, recurring, charge, due date and adminId come from the request; the admin's entity id, name, e-mail, password and community ids from the admin; memberId, entity id and name from the member; the document name or `""` without a document, the house id or `""` without a house |
| SchedulePaymentApiMapper.GetEnrichedRequestAdmin | service/src/main/java/com/myhome/controllers/mapper/SchedulePaymentApiMapper.java:226-234 | a DTO with userId, id, name, e-mail and encrypted password from the enriched request; every other field null (false for the e-mail flag) |
| SchedulePaymentApiMapper.GetEnrichedRequestMember | service/src/main/java/com/myhome/controllers/mapper/SchedulePaymentApiMapper.java:246-251 | a DTO with id = memberEntityId, memberId and name = houseMemberName |
| SchedulePaymentApiMapper.EnrichedAdminRoundTrip | service/src/main/java/com/myhome/controllers/mapper/SchedulePaymentApiMapper.java:189-234 | the admin DTO of an enriched request carries the request's adminId and the admin's id, name, e-mail and encrypted password |
| SchedulePaymentApiMapper.EnrichedMemberRoundTrip | service/src/main/java/com/myhome/controllers/mapper/SchedulePaymentApiMapper.java:189-251 | the member DTO of an enriched request carries the member's entity id, member id and name |
| SchedulePaymentApiMapper.WithUserFields | service/src/main/java/com/myhome/controllers/mapper/SchedulePaymentApiMapper.java:130-135 | admin and member are set from the enriched request and every other field is kept |
| SchedulePaymentApiMapper.EnrichedRequestToPaymentDto | service/src/main/java/com/myhome/controllers/mapper/SchedulePaymentApiMapper.java:115-135 | the generated mapping followed by the after-mapping hook: its admin and member are those of the enriched request and every other field is the generated one |
| SchedulePaymentApiMapper.PaymentDtoBuilder.constructor | service/src/main/java/com/myhome/controllers/mapper/SchedulePaymentApiMapper.java:130 | a builder holding the given DTO |
| SchedulePaymentApiMapper.PaymentDtoBuilder.Member | service/src/main/java/com/myhome/controllers/mapper/SchedulePaymentApiMapper.java:133 | only the member field changes |
| SchedulePaymentApiMapper.PaymentDtoBuilder.Admin | service/src/main/java/com/myhome/controllers/mapper/SchedulePaymentApiMapper.java:134 | only the admin field changes |
| SchedulePaymentApiMapper.SetUserFields | service/src/main/java/com/myhome/controllers/mapper/SchedulePaymentApiMapper.java:130-135 | the builder afterwards holds WithUserFields of what it held before |
| PaymentController.SchedulePayment | service/src/main/java/com/myhome/controllers/PaymentController.java:78-119 | an unknown member raises "House member with given id not exists: " + id before the admin is looked up; an unknown admin raises "Admin with given id not exists: " + id; a member without a house, or whose house has no community, raises a null-pointer error; 201 with the mapped result of scheduling the enriched payment iff the admin is among the admins of the member's house's community; otherwise 404 with no body |
| PaymentController.IsUserAdminOfCommunityHouse | service/src/main/java/com/myhome/controllers/PaymentController.java:115-119 | a null house or a house with a null community raises a null-pointer error; otherwise true iff the admin is among the admins of the house's community |
| PaymentController.UnknownMemberBeforeAdminLookup | service/src/main/java/com/myhome/controllers/PaymentController.java:83-88 | with an unknown member the admin lookup cannot change the outcome |
| PaymentController.NothingScheduledUnlessCreated | service/src/main/java/com/myhome/controllers/PaymentController.java:90-101 | when the admin check fails the payment service's schedulePayment plays no part in the answer |
| PaymentController.ScheduledPaymentParties | service/src/main/java/com/myhome/controllers/PaymentController.java:90-95 | the payment handed to the service names the requested admin id with the admin's details and the member's ids and name |
| PaymentController.ListPaymentDetails | service/src/main/java/com/myhome/controllers/PaymentController.java:131-139 | 200 with the mapped payment when found, else 404 with no body |
| PaymentController.ListAllMemberPayments | service/src/main/java/com/myhome/controllers/PaymentController.java:154-165 | 200 with the mapped payments of the member when the member exists, else 404 with no body |
| PaymentController.UnknownMemberFetchesNoPayments | service/src/main/java/com/myhome/controllers/PaymentController.java:159-164 | for an unknown member the payments lookup cannot change the answer |
| PaymentController.IsAdminInGivenCommunity | service/src/main/java/com/myhome/controllers/PaymentController.java:225-231 | raises "Community with given id not exists: " + id for an unknown community; otherwise true iff some admin of the community has that userId |
| PaymentController.ListAllAdminScheduledPayments | service/src/main/java/com/myhome/controllers/PaymentController.java:189-210 | raises when the community is unknown; 404 with no body when the admin is not in it; otherwise 200 whose payments map the page's content and whose pageInfo is PageInfo.of(pageable, page) |
| PaymentController.NonAdminFetchesNoPayments | service/src/main/java/com/myhome/controllers/PaymentController.java:195-209 | when the admin is not in the community the payments lookup cannot change the answer |
| CommunityController.CreateCommunity | service/src/main/java/com/myhome/controllers/CommunityController.java:85-94 | always 201, with the response mapped from the community the service created |
| CommunityController.ListAllCommunity | service/src/main/java/com/myhome/controllers/CommunityController.java:115-128 | always 200, with the mapped set of the service's communities |
| CommunityController.ListCommunityDetails | service/src/main/java/com/myhome/controllers/CommunityController.java:144-156 | 200 with a one-element set holding the mapped community when found, else 404 |
| CommunityController.ListCommunityAdmins | service/src/main/java/com/myhome/controllers/CommunityController.java:179-191 | 200 with the mapped set of the admins found, else 404 |
| CommunityController.ListCommunityHouses | service/src/main/java/com/myhome/controllers/CommunityController.java:218-230 | 200 with the mapped set of the houses found, else 404 |
| CommunityController.AdminUserIds | service/src/main/java/com/myhome/controllers/CommunityController.java:259-262 | an id is collected iff some admin of the community has it as userId |
| CommunityController.AddCommunityAdmins | service/src/main/java/com/myhome/controllers/CommunityController.java:251-266 | 201 whose admins are exactly the userIds of the updated community's admins when the community exists, else 404 |
| CommunityController.AddCommunityHouses | service/src/main/java/com/myhome/controllers/CommunityController.java:289-305 | 201 with the returned house ids iff both the returned ids and the requested names are non-empty, else 400 with no body |
| CommunityController.EmptyHouseRequestRefused | service/src/main/java/com/myhome/controllers/CommunityController.java:298-303 | a request without house names is answered 400 whatever the service returns |
| CommunityController.RemoveCommunityHouse | service/src/main/java/com/myhome/controllers/CommunityController.java:321-335 | 204 iff the community exists and the removal reports true, else 404; never a body |
| CommunityController.AbsentCommunityAttemptsNoRemoval | service/src/main/java/com/myhome/controllers/CommunityController.java:329-334 | without the community the removal service cannot change the answer, which is 404 |
| CommunityController.RemovalAsksOnlyAboutFoundCommunity | service/src/main/java/com/myhome/controllers/CommunityController.java:331-332 | only the removal's answer for the found community and the given house matters |
| CommunityController.RemoveAdminFromCommunity | service/src/main/java/com/myhome/controllers/CommunityController.java:353-365 | 204 iff the service removed the admin, else 404, never a body |
| CommunityController.DeleteCommunity | service/src/main/java/com/myhome/controllers/CommunityController.java:376-385 | 204 iff the service deleted the community, else 404, never a body |
| HouseController.ListAllHouses | service/src/main/java/com/myhome/controllers/HouseController.java:77-92 | always 200 with the mapped houses |
| HouseController.GetHouseDetails | service/src/main/java/com/myhome/controllers/HouseController.java:104-113 | 200 with a one-element set holding the mapped house when found, else 404 |
| HouseController.ListAllMembersOfHouse | service/src/main/java/com/myhome/controllers/HouseController.java:133-145 | 200 with the mapped set of members when the service answers, else 404 |
| HouseController.AddHouseMembers | service/src/main/java/com/myhome/controllers/HouseController.java:166-183 | 404 with no body iff nothing was saved while members were requested; otherwise 201 with the mapped saved members |
| HouseController.EmptyMemberRequestCreated | service/src/main/java/com/myhome/controllers/HouseController.java:175-182 | a request without members is answered 201, never 404 |
| HouseController.DeleteHouseMember | service/src/main/java/com/myhome/controllers/HouseController.java:201-211 | 204 iff the service deleted the member, else 404, never a body |
| UserController.PasswordActionType.Name | service/src/main/java/com/myhome/controllers/UserController.java:173-177 | the two action names are FORGOT and RESET |
| UserController.ValueOf | service/src/main/java/com/myhome/controllers/UserController.java:173 | parses exactly FORGOT and RESET, giving the constant of that name; any other name raises IllegalArgumentException |
| UserController.ValueOfName | service/src/main/java/com/myhome/controllers/UserController.java:173-177 | each constant is parsed back from its name |
| UserController.UserService.RequestResetPassword | service/src/main/java/com/myhome/controllers/UserController.java:176 | records one reset request, nothing else |
| UserController.UserService.ResetPassword | service/src/main/java/com/myhome/controllers/UserController.java:178 | records one reset attempt and answers with the service's outcome |
| UserController.UsersPasswordPost | service/src/main/java/com/myhome/controllers/UserController.java:170-185 | an unknown action raises before the service is called; FORGOT requests a reset once and answers 200; RESET attempts the reset once and answers 200 iff it succeeded, else 400 |
| UserController.SignUp | service/src/main/java/com/myhome/controllers/UserController.java:82-93 | 201 with the mapped created user iff the service creates one, else 409 with no body |
| UserController.ListAllUsers | service/src/main/java/com/myhome/controllers/UserController.java:114-126 | always 200 with the mapped users |
| UserController.GetUserDetails | service/src/main/java/com/myhome/controllers/UserController.java:138-146 | 200 with the mapped user when found, else 404 with no body |
| UserController.ListAllHousemates | service/src/main/java/com/myhome/controllers/UserController.java:215-225 | 200 with the mapped set of housemates when the service answers, else 404 |
| UserController.ConfirmEmail | service/src/main/java/com/myhome/controllers/UserController.java:239-247 | 200 iff the service confirms the e-mail, else 400, never a body |
| UserController.ResendConfirmEmailMail | service/src/main/java/com/myhome/controllers/UserController.java:259-267 | 200 iff the service resends the mail, else 400, never a body |
| AmenityController.GetAmenityDetails | service/src/main/java/com/myhome/controllers/AmenityController.java:60-67 | 200 with the mapped amenity when found, else 404 with no body |
| AmenityController.UnknownAmenityIsNotMapped | service/src/main/java/com/myhome/controllers/AmenityController.java:63-66 | for an unknown amenity the mapper cannot change the answer |
| AmenityController.ListAllAmenities | service/src/main/java/com/myhome/controllers/AmenityController.java:79-86 | always 200 with the mapped amenities of the community |
| AmenityController.AddAmenityToCommunity | service/src/main/java/com/myhome/controllers/AmenityController.java:101-109 | 200 with the created amenities when the service creates them, else 404 |
| AmenityController.DeleteAmenity | service/src/main/java/com/myhome/controllers/AmenityController.java:120-128 | 204 iff the service deleted the amenity, else 404, never a body |
| AmenityController.AmenityToUpdate | service/src/main/java/com/myhome/controllers/AmenityController.java:153-154 | the DTO handed to the service has the path's amenity id and otherwise the mapped request's fields |
| AmenityController.MappedAmenityIdIgnored | service/src/main/java/com/myhome/controllers/AmenityController.java:153-154 | requests mapping to DTOs that differ only in amenity id lead to the same update |
| AmenityController.AmenityDto.SetAmenityId | service/src/main/java/com/myhome/controllers/AmenityController.java:154 | only the amenity id changes |
| AmenityController.AmenityService.UpdateAmenity | service/src/main/java/com/myhome/controllers/AmenityController.java:155 | records the DTO's contents and answers with the service's outcome |
| AmenityController.UpdateAmenity | service/src/main/java/com/myhome/controllers/AmenityController.java:150-161 | the service is asked once, with the path's amenity id; 204 iff it reports the update, else 404, never a body |
| AuthenticationController.AuthenticationService.Login | service/src/main/java/com/myhome/controllers/AuthenticationController.java:35 | records the request; returns the authentication data or raises AuthenticationException |
| AuthenticationController.HttpHeaders.Add | service/src/main/java/com/myhome/controllers/AuthenticationController.java:54-55 | appends the value to that header's list, starting the list for a new header |
| AuthenticationController.CreateLoginHeaders | service/src/main/java/com/myhome/controllers/AuthenticationController.java:52-57 | exactly two headers, userId and token, holding the user id and the JWT |
| AuthenticationController.Login | service/src/main/java/com/myhome/controllers/AuthenticationController.java:33-39 | the service is asked exactly once with the request; success answers 200 with exactly the userId and token headers; a failed login raises AuthenticationException |
| Http.AuthenticationFailuresIndistinguishable | service/src/main/java/com/myhome/controllers/exceptions/AuthenticationException.java:15-20 | an unknown user and wrong credentials (the two subclasses UserNotFoundException and CredentialsIncorrectException) raise exceptions with the same message and status 401 |
| AppUserDetailsService.LoadUserByUsername | service/src/main/java/com/myhome/security/AppUserDetailsService.java:56-71 | the user is looked up by e-mail; a miss raises UsernameNotFoundException with the name asked for; otherwise the user's e-mail and encrypted password, all four flags true, no authorities |
| AppUserDetailsService.GetUserDetailsByUsername | service/src/main/java/com/myhome/security/AppUserDetailsService.java:83-89 | the same lookup and error; otherwise the mapped DTO of the user found |
| AppUserDetailsService.LookupsAgree | service/src/main/java/com/myhome/security/AppUserDetailsService.java:59-87 | both lookups succeed for the same names and fail with the same error |
| AppUserDetailsService.DetailsNameTheRequestedUser | service/src/main/java/com/myhome/security/AppUserDetailsService.java:59-65 | when the repository only returns the user with the e-mail asked for, the details' username is that name |
| EmailTemplateConfig.NormalizePrefix | service/src/main/java/com/myhome/configuration/EmailTemplateConfig.java:80 | the prefix ends with the separator; a path already ending with it is kept, otherwise exactly one separator is appended |
| EmailTemplateConfig.NormalizePrefixIdempotent | service/src/main/java/com/myhome/configuration/EmailTemplateConfig.java:80 | normalising twice equals normalising once |
| EmailTemplateConfig.NormalizePrefixExtendsPath | service/src/main/java/com/myhome/configuration/EmailTemplateConfig.java:80 | the prefix starts with the path and is at most one separator longer |
| EmailTemplateConfig.ThymeleafTemplateResolver | service/src/main/java/com/myhome/configuration/EmailTemplateConfig.java:75-87 | a fresh resolver with the normalised prefix, and suffix, mode, encoding and cacheable copied from the template properties |
| EmailTemplateConfig.EmailMessageSource | service/src/main/java/com/myhome/configuration/EmailTemplateConfig.java:35-42 | a fresh message source with the localisation path as basename, English as default locale, and the localisation encoding and cache seconds |
| Paging.PageInfo.Of | api/src/main/java/com/myhome/utils/PageInfo.java:42-49 | currentPage is the page number, pageLimit the page size, totalPages and totalElements those of the page |
| Paging.OfEquality | api/src/main/java/com/myhome/utils/PageInfo.java:18-49 | two PageInfos built by of are equal iff all four fields are equal |

## Left out

- Decoder failures: the filter has no try/catch, so whatever the decoder raises propagates out of the filter; the model follows that code, not a reading in which invalid tokens fall back to an anonymous request.
- AuthorizationFilter.MyHomeAuthorizationFilter.DoFilterInternal: requires the three environment properties to be present, so the inputs where `getProperty` returns null are not modelled. For those inputs Java behaves as follows (MyHomeAuthorizationFilter.java:85-97, 125-127):
  - A missing header name is passed to `request.getHeader(null)`, whose answer is the servlet container's.
  - With the prefix missing, a request without the header still passes straight through to the chain. A request with the header fails with a null-pointer error in `startsWith(null)`.
  - A missing secret is never read on a pass-through. On the authenticating path it reaches the decoder as null, and what happens then is up to the token codec.
- Header names are matched exactly; the servlet container's case-insensitive header lookup is not modelled, and neither is the case-insensitive map behind HttpHeaders.
- The token codec (AppJwtEncoderDecoder) is an abstract function; token signatures and expiry are not modelled.
- Spring Security's thread-local context holder, the BasicAuthenticationFilter superclass and the servlet response object are not modelled beyond one context field and a recorded chain.
- Entity graphs are values, so a cycle (an admin inside a community that is inside that admin's communities) cannot be built; the model only sees finite, acyclic snapshots.
- PaymentController.IsUserAdminOfCommunityHouse: User equality in the source is not visible, so it is the parameter sameUser.
- Community entity equality on id, name and district (Community.java:57) is not modelled: the model's sets compare whole values.
- Paging.PageInfo: the datatype's constructor is public in the model; in the source it is private, so there every PageInfo comes from `of`.
- The generated MapStruct methods, the other API mappers and every service and repository are parameters with no behaviour of their own.
- PasswordActionType.java is not part of this model: only the two constants the controller names are modelled, so the branch in which some other parsed constant leaves the result false cannot arise.
- UserController.UsersPasswordPost: a null action (a null-pointer error in Enum.valueOf) is not modelled, because the parameter is declared not null.
- PaymentDto.java is not part of this model; its fields are taken from the builder calls and the mapper, and BigDecimal charges and LocalDate dates are opaque values.
- Pageable sorting and offsets are not modelled; only page number and page size.
- AppUserDetailsService.LoadUserByUsername: the framework's own argument checks in the UserDetails constructor (it refuses an empty username or a null password) are not modelled.
- EmailTemplateConfig: thymeleafTemplateEngine is plain wiring and is left out; the template mode stays a string and is not parsed into Thymeleaf's enum.
- The resolver and message-source classes start with every setting unset (None); their library defaults are not modelled, since every setting the core makes is overwritten.
- Logging, validation annotations, HTTP serialisation and per-request concurrency are out of scope.
- HouseMemberDocumentController, BookingController and the configuration classes are plumbing and are not modelled.
