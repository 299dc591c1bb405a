# Study-spot client: a Dafny model of its screens

This project models the logic of a mobile client for finding study spots. It covers:

- the Home screen: the search filter over locations, the list/map toggle, the detail drawer, the "Rate this spot" gate, and the submission of a rating;
- the Login screen and the Register screen: input checks, the request sequences, and what each stores on the device;
- the rating modal and the review card;
- the list view and the amenities section of a location.

The screens talk to the outside world through effects, recorded in order in a trace on a `Device`:

- requests to the remote API;
- writes to the device's key-value storage (`userToken`, `userProfile`);
- navigation;
- alerts;
- a transient error banner.

The answer to each awaited request is a `Reply` value given to the operation as a parameter. `Fail` means the request threw, with the server's error text if there was one; `Ok` carries the response body. Storage is a map, and `Effects.Apply` gives its contents after a run of effects.

Each stateful screen is a class whose fields are the screen's state variables:

- `Home.HomeScreen`;
- `Login.LoginScreen`;
- `Register.RegisterScreen`;
- `RatingModal.RatingForm`;
- `ReviewCard.ReviewCardView`.

Its methods are the handlers. The plain setters state their new state directly; each effectful handler is proved against a function that states its effects (`Home.RatingSubmitEffects`, `Login.LogInEffects`, `Register.RegisterEffects`, …). The properties are proved about those functions. The list view, the amenities section and the search filter are pure, so they are functions.

JavaScript values are modelled this way:

- A property that may be `undefined` or `null` is an `Option`.
- A string is truthy iff it is present and non-empty (`Js.Truthy`).
- A JSON object is a map from member names to strings.
- `toLowerCase`/`toUpperCase` are modelled on ASCII letters only.
- `trim` removes the ECMAScript white-space and line-terminator characters (`Text.IsSpace`).

The list view's comment at components/Spots/List.js:33 says the locations hook is used only when no props are given. The code calls `useLocations()` unconditionally at line 34 and falls back to its values at lines 37-39: to the hook's locations when the `locations` prop is falsy, to the hook's loading flag when the `loading` prop is `undefined`, and to the hook's error whenever the `error` prop is falsy. The model follows the code (`SpotList.Resolve`, `SpotList.HookErrorShowsThrough`).

## Model

| member | source | states |
|---|---|---|
| Text.Lower | pages/Home.js:100 | `toLowerCase` keeps the length and lowers each ASCII letter, position by position |
| Text.Upper | components/Reviews/ReviewCard.js:41 | `toUpperCase` keeps the length and raises each ASCII letter, position by position |
| Text.Includes | pages/Home.js:100-113 | `includes` holds iff the needle occurs at some position of the haystack; a needle longer than the haystack never occurs |
| Text.TrimIsInfix | pages/Register.js:136 | `trim()` returns a contiguous part of the input; what it drops before and after is all white space, and what it keeps starts and ends with a non-space |
| Text.TrimEmptyIffBlank | pages/Home.js:199 | `trim()` leaves nothing of a string iff every character of that string is white space |
| Locations.Filter | pages/Home.js:96-115 | the search keeps exactly the locations that match, never adds any, and keeps every location for an empty term |
| Locations.Matches | pages/Home.js:97-114 | the filter's callback: an empty term matches every location; a location without wifi or outlets matches a non-empty term only through one of its text fields |
| Locations.FilterIsSubsequence | pages/Home.js:96 | the result of the search is an order-preserving subsequence of the locations |
| Locations.FilterConcat | pages/Home.js:96 | the search distributes over concatenation: it decides per location, independently of the others |
| Locations.FilterLength | pages/Home.js:96 | the number of results is the number of matching locations |
| Locations.FilterIdempotent | pages/Home.js:96-115 | searching the results again with the same term changes nothing |
| Locations.FilterCaseInsensitive | pages/Home.js:100-113 | two terms that lowercase alike give the same results |
| Locations.MatchesIff | pages/Home.js:97-113 | for a non-empty term, a location matches iff the lowercased term occurs in a present lowercased text field (name, key, place name, city, country, opening hours), or the location has wifi/outlets and the term occurs in "wifi"/"outlets" |
| Locations.BareLocationNeverMatches | pages/Home.js:100-113 | a location with no text field and neither amenity matches no non-empty term: a missing field never matches |
| Locations.LongTermSkipsAmenities | pages/Home.js:111-112 | a term longer than "outlets" can only match through a text field, since the amenity test is containment of the term in the amenity's name |
| Locations.PrefixOfWifiMatches | pages/Home.js:111 | a location with wifi matches the term "wi" |
| Locations.SentenceMissesWifi | pages/Home.js:111 | a location with wifi but no text fields does not match "wifi spot" |
| Home.BuildReviewBody | pages/Home.js:192-201 | the review body carries the rating, the profile's `username` and `_id`; the comment is present iff it has a non-white-space character, and it is sent untrimmed |
| Home.ReviewPath | pages/Home.js:204 | the review is sent to `/locations/addReview/` followed by the selection's `_id`, or by "undefined" when it has none |
| Home.RatingSubmitEffects | pages/Home.js:174-222 | without a selected location or a profile nothing happens; otherwise the first effect is the PUT of that body to `/locations/addReview/<_id>`; a successful PUT is followed by nothing, a failed one by exactly one alert with the server's `message` or the fallback text; a request is sent iff both are present; storage and navigation are never touched |
| Home.ReviewIgnoresModalLocationId | pages/Home.js:203-206 | the submission does not depend on the `locationId` the modal hands back |
| Home.RateButtonVisible | pages/Home.js:359 | `createdById !== userProfile?._id`: with a present creator id and a profile, the button shows iff the profile's `_id` differs from it; with no selection and no profile it is hidden |
| Home.CreatorCannotRate | pages/Home.js:359 | the rate button is hidden from the creator of the spot |
| Home.OthersCanRate | pages/Home.js:359 | the rate button is shown to a viewer whose `_id` differs from the spot's creator |
| Home.UnattributedSpotHiddenWithoutProfile | pages/Home.js:359 | a spot whose `createdById` is `undefined` is not rateable while no profile is loaded, since `undefined !== undefined` is false |
| Home.NullCreatorRateableWithoutProfile | pages/Home.js:359 | a spot whose `createdById` is `null` is rateable while no profile is loaded, since `null !== undefined` is true |
| Home.HomeScreen.constructor | pages/Home.js:53-60 | the screen starts on the list, with an empty search, no selection, the drawer and the modal closed, and no profile |
| Home.HomeScreen.FilteredLocations | pages/Home.js:96-115 | what the list or map is given is exactly the locations that match the current search term, as an order-preserving subsequence, and all of them for an empty search |
| Home.HomeScreen.LoadUserProfile | pages/Home.js:67-80 | on mount the profile becomes the stored `userProfile` object if there is one and is otherwise left alone; nothing else changes |
| Home.HomeScreen.SetSearchTerm | pages/Home.js:263 | typing sets the search term only |
| Home.HomeScreen.ToggleView | pages/Home.js:121-132 | the toggle negates `showMap` only |
| Home.HomeScreen.HandleLocationSelect | pages/Home.js:143-152 | selecting a location stores it and opens the drawer |
| Home.HomeScreen.CloseDrawer | pages/Home.js:154-163 | closing the drawer hides it and keeps the selection |
| Home.HomeScreen.PressRateButton | pages/Home.js:359-362 | the button, offered only in the open drawer to a non-creator, opens the modal |
| Home.HomeScreen.CloseRatingModal | pages/Home.js:375 | the modal's close hides it and changes nothing else |
| Home.HomeScreen.HandleRatingSubmit | pages/Home.js:174-222 | the trace grows by exactly `RatingSubmitEffects`, for the selection at the time of the call; on success the modal closes, and the selection is replaced only if the response carries a location; otherwise the modal and selection stay; storage is unchanged |
| Home.HomeScreen.SubmitFromModal | pages/Home.js:373-378 | wiring the modal's Submit to the handler: with no star chosen nothing is sent and the form keeps its values; otherwise the trace grows by exactly `RatingSubmitEffects` for the form's rating, comment and location id, the form records that submission and resets to 0 and "", its `locationId` unchanged, and the modal and selection change as in `HandleRatingSubmit`; every request that results carries a rating in 1..5 |
| Login.Credentials | pages/Login.js:113-117 | the login body has exactly the members `email` and `password` |
| Login.ProfileEffects | pages/Login.js:77-96 | `getProfile` sends one GET with the bearer token; on success it stores the response as `userProfile`; on failure it writes nothing and shows one alert with the server's `error` or "Failed to fetch profile." |
| Login.ProfileResult | pages/Login.js:77-96 | `getProfile` returns the data iff the request succeeded, and null otherwise |
| Login.TokenEffects | pages/Login.js:119-128 | with a token: store it, then the profile effects, then navigate to MainApp |
| Login.LogInEffects | pages/Login.js:106-135 | an empty email or password (exact comparison with "") gives only the alert; otherwise the first effect is the POST of the credentials; a failed POST is followed by exactly one alert with the server's `error` or the fallback text, a falsy body by nothing; a token is stored, and MainApp reached, iff both fields are non-empty and the login answered with a token |
| Login.ReplyEffects | pages/Login.js:112-134 | after the POST: a failure gives one alert with the server's `error` or "Login failed. Please try again."; a falsy body gives nothing; a token gives the token effects |
| Login.LogInOrder | pages/Login.js:119-127 | after a successful login, the token is written before the profile is requested, and navigation comes last whether or not the profile arrived |
| Login.LogInStores | pages/Login.js:119-124 | after a successful login storage holds the token, and the fetched profile if the fetch succeeded; otherwise the old profile is left as it was |
| Login.FailedLogInTouchesNothing | pages/Login.js:112-134 | a failed or empty login response stores nothing and does not navigate |
| Login.LoginScreen.constructor | pages/Login.js:59-60 | both fields start empty |
| Login.LoginScreen.SetEmail | pages/Login.js:175 | typing sets the email only |
| Login.LoginScreen.SetPassword | pages/Login.js:194 | typing sets the password only |
| Login.LoginScreen.GetProfile | pages/Login.js:77-96 | the trace grows by `ProfileEffects`; storage becomes their result; the returned value is `ProfileResult` |
| Login.LoginScreen.UseToken | pages/Login.js:119-128 | the trace grows by `TokenEffects`, and storage becomes their result |
| Login.LoginScreen.HandleLoginReply | pages/Login.js:119-134 | the trace grows by `ReplyEffects`, and storage becomes their result |
| Login.LoginScreen.LogIn | pages/Login.js:106-135 | the trace grows by `LogInEffects`, and storage becomes their result |
| Login.LoginScreen.SendLogin | pages/Login.js:112-134 | the trace grows by the POST of the credentials followed by `ReplyEffects`, and storage becomes their result |
| RatingModal.Stars | components/Reviews/RatingModal.js:93-99 | the selector draws one star per value 1..5 |
| RatingModal.StarsFillPrefix | components/Reviews/RatingModal.js:95-99 | star k is filled iff the rating is at least k, so for a rating in 0..5 the filled stars are a prefix of that length |
| RatingModal.StarsAgreeWithReviewCard | components/Reviews/RatingModal.js:95-99 | the selector shows a rating exactly as a review card draws it |
| RatingModal.SubmitEnabled | components/Reviews/RatingModal.js:125 | `disabled={!rating}`: for a rating the selector can hold, Submit is enabled iff a star value 1..5 is chosen |
| RatingModal.RatingForm.constructor | components/Reviews/RatingModal.js:19-20 | the form starts with rating 0 and an empty comment |
| RatingModal.RatingForm.TapStar | components/Reviews/RatingModal.js:93-94 | tapping star k sets the rating to exactly k |
| RatingModal.RatingForm.EditComment | components/Reviews/RatingModal.js:110 | typing sets the comment only |
| RatingModal.RatingForm.SetLocationId | pages/Home.js:377 | Home re-renders the modal with `selectedLocation?.id`; the prop changes and the form's rating, comment and submissions stay |
| RatingModal.RatingForm.PressSubmit | components/Reviews/RatingModal.js:59-68 | while the rating is 0 the button is disabled and nothing happens; otherwise the rating, comment and location id are handed on unchanged, and the form resets to 0 and ""; every rating handed on is in 1..5 |
| ReviewCard.Glyphs | components/Reviews/ReviewCard.js:52-59 | glyph i is filled iff i is below the rating |
| ReviewCard.GlyphsCount | components/Reviews/ReviewCard.js:52-59 | of n glyphs, the rating clamped to 0..n are filled |
| ReviewCard.StarRowCount | components/Reviews/ReviewCard.js:52-59 | exactly five stars are drawn, and the rating clamped to 0..5 of them are filled |
| ReviewCard.FilledBeforeEmpty | components/Reviews/ReviewCard.js:55 | no empty star precedes a filled one |
| ReviewCard.Initial | components/Reviews/ReviewCard.js:41 | the placeholder is one character: "?" when the username is missing or empty, otherwise the uppercased first character |
| ReviewCard.AvatarFor | components/Reviews/ReviewCard.js:33-44 | the photo is shown iff the poster info has a truthy `profilePhoto`; otherwise the placeholder with the initial is shown |
| ReviewCard.PosterEffects | components/Reviews/ReviewCard.js:14-18 | the lookup sends at most one request, and does so iff the review has a user id: a GET without a body to `/locations/getPoster/<userId>` |
| ReviewCard.PosterAfter | components/Reviews/ReviewCard.js:20-26 | `userInfo` changes only to a looked-up `userInfo`; a failed or empty lookup leaves it as it was |
| ReviewCard.ReviewCardView.constructor | components/Reviews/ReviewCard.js:6 | the card starts without poster info |
| ReviewCard.ReviewCardView.GetPoster | components/Reviews/ReviewCard.js:12-27 | the trace grows by `PosterEffects`; storage is unchanged; `userInfo` becomes `PosterAfter` |
| SpotList.Resolve | components/Spots/List.js:37-39 | a locations prop, even an empty array, is used instead of the hook's locations; loading comes from the hook only when the prop is `undefined`, so a `null` prop means not loading; the error comes from the prop when truthy and from the hook otherwise |
| SpotList.Render | components/Spots/List.js:79-113 | the spinner shows iff loading; the error text iff not loading and the error is truthy; "No locations found" iff not loading, no error and no locations; otherwise the count equals the number of cards, and the cards are the locations in order |
| SpotList.EveryLocationGetsACard | components/Spots/List.js:103-113 | when not loading, not failing and not empty, one card per location is shown, in order, under their count |
| SpotList.EmptyPropListHasNoFallback | components/Spots/List.js:37-39 | an empty array prop is not replaced by the hook's locations: the empty message shows |
| SpotList.HomePropsIgnoreHookData | components/Spots/List.js:37-38 | given an array and a boolean, as Home passes, the list's rendering depends on its hook only through the hook's error |
| SpotList.HookErrorShowsThrough | components/Spots/List.js:39 | with no error prop, the list's own hook error is displayed |
| SpotList.NullLoadingShowsNoSpinner | components/Spots/List.js:38 | a `null` loading prop is not `undefined`, so it is used as is: no spinner, even while the hook is loading |
| SpotList.PressCard | components/Spots/List.js:42-46 | a card press selects its location iff a callback was given |
| Amenities.Tiles | components/Amenities/AmenitiesSection.js:15-58 | six tiles, in the fixed order wifi, outlets, food and drink, whiteboards, group work, ID; each shows its available text when its flag holds and its unavailable text otherwise |
| Amenities.TileFor | components/Amenities/Amenity.js:26 | a tile shows its available text when its flag is truthy and its unavailable text otherwise, with the kind's icon |
| Amenities.TilesShowFlags | components/Amenities/AmenitiesSection.js:15-58 | the six flags can be read back from the texts shown, in order |
| Amenities.TablesLabel | components/Amenities/AmenitiesSection.js:73-77 | "Mixed" is shown as "Individual and Shared"; any other value, or a missing one, is shown unchanged |
| Amenities.MixedNeverShown | components/Amenities/AmenitiesSection.js:73-77 | the tables row never shows "Mixed" |
| Amenities.TablesLabelCollisions | components/Amenities/AmenitiesSection.js:73-77 | the only two tables values shown alike are "Mixed" and "Individual and Shared" |
| Amenities.SectionFor | components/Amenities/AmenitiesSection.js:7-78 | a missing location renders nothing; otherwise the six tiles and the rows Lighting "Bright", Noise Level "Moderate" and the relabelled Tables value |
| Amenities.SectionDependsOnFlagsAndTables | components/Amenities/AmenitiesSection.js:62-78 | two locations with the same flags and shown tables value render the same section: lighting and noise do not depend on the location |
| Register.Validate | pages/Register.js:135-161 | the inputs pass iff all five are non-blank after trimming and the passwords are equal; the mismatch is reported iff all five are non-blank and the passwords differ |
| Register.Message | pages/Register.js:137-157 | each failure's banner: a missing input asks "Please …" for it, and only the mismatch says "Passwords do not match" |
| Register.MessagesDiffer | pages/Register.js:137-157 | the six banner texts are pairwise distinct, so the banner tells which check failed |
| Register.RejectionNamesFirstFailure | pages/Register.js:136-155 | a reported missing input is blank, and every input tested before it is not: only the first failing check is reported |
| Register.TrailingSpaceRejected | pages/Register.js:156 | the mismatch test compares untrimmed passwords, so "a " against "a" is rejected |
| Register.HasCharIn | pages/Register.js:65-68 | the character-class test holds iff some character of the password is in the class |
| Register.RequirementsOf | pages/Register.js:63-70 | each of the four flags holds iff the password has a character in A-Z, a-z, 0-9 or the special set, respectively |
| Register.WeakPasswordAccepted | pages/Register.js:63-70 | the flags do not take part in validation: a password with none of them still passes |
| Register.MatchIndicator | pages/Register.js:420 | "Passwords Match" shows iff the two inputs are equal, also when both are empty |
| Register.RegisterBody | pages/Register.js:167-180 | the posted body has exactly eight members: the username, email and password, `name` carrying the full name, and four empty social fields |
| Register.ReducedProfile | pages/Register.js:185-193 | the stored profile has the members of the response among `_id`, `username`, `email` and `name`, with the response's values |
| Register.ReducedProfileLookups | pages/Register.js:187-192 | the stored profile answers lookups of those four members as the response does, and has no other members |
| Register.ReducedProfileIdempotent | pages/Register.js:187-192 | reducing an already reduced profile changes nothing |
| Register.RegisterEffects | pages/Register.js:163-203 | rejected inputs give only their banner; passing inputs give exactly `PostEffects`: the first effect is the POST of the body, and a failed POST is followed by exactly one banner with the server's `error` or the fallback text; a request is sent iff the inputs pass; the token and profile are written, and MainApp reached, iff the inputs pass and the response is truthy |
| Register.PostEffects | pages/Register.js:166-202 | after the POST: a failed request is followed by exactly one banner with the server's `error` or the fallback text and writes nothing; a falsy response is followed by nothing; a truthy response writes the token and the profile and navigates |
| Register.OutcomeEffects | pages/Register.js:182-202 | after the POST: a failure gives one banner with the server's `error` or "Registration failed. Please try again."; a falsy response gives nothing; a truthy one gives the stored registration |
| Register.StoreRegistration | pages/Register.js:182-196 | on a truthy response: the token, then the reduced profile, then navigation to MainApp |
| Register.RegisterStores | pages/Register.js:182-193 | after a successful sign-up storage holds the token and the reduced profile |
| Register.UnsuccessfulRegisterTouchesNothing | pages/Register.js:164-202 | rejected inputs, or a failed or empty response, leave storage as it was |
| Register.RegisterScreen.constructor | pages/Register.js:39-55 | all inputs start empty, the passwords "match", and no flag and no banner is set |
| Register.RegisterScreen.SetFullName | pages/Register.js:249 | typing sets the full name only: the other inputs, the banner text and the three visibility flags are unchanged |
| Register.RegisterScreen.SetUsername | pages/Register.js:265 | typing sets the username only: the other inputs, the banner text and the three visibility flags are unchanged |
| Register.RegisterScreen.SetEmail | pages/Register.js:282 | typing sets the email only: the other inputs, the banner text and the three visibility flags are unchanged |
| Register.RegisterScreen.SetPassword | pages/Register.js:59-70 | typing a password recomputes the match indicator and the four flags from the new password; the other inputs, the banner text and the visibility flags are unchanged |
| Register.RegisterScreen.SetConfirmPassword | pages/Register.js:59-61 | typing the confirmation recomputes the match indicator and leaves the strength flags, the banner text and the visibility flags |
| Register.RegisterScreen.SetPasswordFocus | pages/Register.js:367-368 | focusing or leaving the password field shows or hides the strength list; the inputs, the two eye toggles and the banner text are unchanged |
| Register.RegisterScreen.ToggleShowPassword | pages/Register.js:372 | the eye button toggles password visibility only: the inputs, the other two flags and the banner text are unchanged |
| Register.RegisterScreen.ToggleShowConfirmPassword | pages/Register.js:400 | the eye button toggles confirmation visibility only: the inputs, the other two flags and the banner text are unchanged |
| Register.RegisterScreen.ShowError | pages/Register.js:99-118 | the banner text is set and the banner is shown; the inputs and the visibility flags are unchanged |
| Register.RegisterScreen.ValidateInputs | pages/Register.js:135-161 | the checks run in order on the trimmed inputs: the result is true iff `Validate` passes; on failure exactly one banner, for the first failing check, is shown; the visibility flags are unchanged |
| Register.RegisterScreen.Register | pages/Register.js:163-203 | the trace grows by `RegisterEffects`, and storage becomes their result; the banner text becomes the rejection's message, or the failure text of a failed POST, and is otherwise unchanged; the inputs, the visibility flags and the invariant relating the indicators to the passwords are kept |
| Register.RegisterScreen.SendRegistration | pages/Register.js:166-202 | the trace grows by `PostEffects`, and storage becomes their result; a failed POST sets the banner text to its failure text, a successful one leaves it; the inputs and visibility flags are kept |
| Register.RegisterScreen.PostRegistration | pages/Register.js:166-202 | the trace grows by the POST of the inputs followed by `OutcomeEffects`, and storage becomes their result; a failed POST sets the banner text to its failure text, a successful one leaves it; the inputs and visibility flags are kept |
| Register.RegisterScreen.HandleRegistrationReply | pages/Register.js:182-202 | the trace grows by `OutcomeEffects`, and storage becomes their result; a failure sets the banner text to its failure text, a success leaves it; the inputs and visibility flags are kept |
| Register.RegisterScreen.StoreResponse | pages/Register.js:182-196 | the trace grows by `StoreRegistration`, and storage becomes their result |
| Session.RegisteredProfileSignsReviews | pages/Register.js:185-193 | after signing up, Home signs a review with the `_id` and `username` of the registration response |
| Session.LoggedInProfileSignsReviews | pages/Login.js:89 | after logging in, the stored profile is the fetched one, and Home signs a review with its `_id` and `username` |
| Effects.FailureText | pages/Login.js:93 | the text of a failed request: the server's message when it is a non-empty string, otherwise the screen's fallback (also pages/Login.js:131, pages/Register.js:199, pages/Home.js:218) |
| Effects.ApplyNeverRemoves | pages/Login.js:121 | storage after a run of effects (`Apply`, in order) keeps every key it had: `AsyncStorage.setItem` only adds or replaces |
| Effects.Device.Emit | pages/Login.js:89 | each effect is appended to the trace, and a `setItem` writes its key in storage |

## Left out

- Network, timing and storage internals are parameters or left out. The HTTP client, the API base URL, `withCredentials` and the storage library are not modelled. Every awaited request is one `Reply` parameter. A storage write is assumed never to fail, so the catch branches that a failing `setItem` would reach are not modelled.
- Concurrency is not modelled: a response arriving after its screen was left, and overlapping submissions, are out of scope.
- JSON values are flattened. Members are strings, so `JSON.parse`/`JSON.stringify` of the stored profile are the identity and member order is ignored. `null` and `undefined` are both `None` wherever the code only tests truthiness or uses `?.`/`||`; the two places that compare with `!==` (`Locations.Location.createdById` and `SpotList.ListProps.loading`) keep them apart. Template interpolation also tells them apart, which the model does not follow in one place:
- Home.ReviewPath: a missing `_id` is interpolated as "undefined"; an `_id` of `null`, which the template literal at pages/Home.js:204 writes as "null", is not told apart.
- Case mapping covers ASCII letters only. The full Unicode mapping of `toLowerCase`/`toUpperCase` is not modelled.
- Everything visual is left out: animations (the drawer, the view toggle, the banner's fade and its three-second timer), fonts, styles, icons and colours, and date formatting of review timestamps.
- The `useLocations` hook is left out: its state is an input of the list view.
- App.js, navigation internals, the profile screen, the map view, and the presentational cards are not part of this model.
- Login.LoginScreen: the password-visibility toggle on the Login screen is not modelled.
- Register.RegisterScreen: `getProfile` on the Register screen is defined but never called, so it is not modelled (the Login screen's is).
- Register.Registered: a truthy registration response is assumed to carry a string `token`. Storing an undefined token is not modelled.
- Login.LogInEffects: likewise, a truthy login response stands for its string `token`.
- Home.HomeScreen.HandleRatingSubmit: the alert text on failure is the response's `message` member or the fallback; like the other screens' `error` member, it is one optional string in the `Reply`.
- Register.RegisterScreen: `passwordsMatch` and `passwordRequirements` are held at the values their effects settle on (pages/Register.js:59-70); the first render before the effects run, where `passwordsMatch` is still `false` (pages/Register.js:46) and "Passwords Do Not Match" would show, is not modelled.
- RatingModal.RatingForm: its `locationId` is Home's `selectedLocation?.id`, which can change while the form keeps its values (`SetLocationId`); the handler ignores it (`Home.ReviewIgnoresModalLocationId`), and Home's `SubmitFromModal` does not re-render the prop between a selection and a submit.
- RatingModal.RatingForm: the modal's `visible` flag belongs to Home (`isRatingModalVisible`). The form's values survive a cancel, as in the source, because nothing resets them there.
- ReviewCard.Review: ratings are integers; fractional ratings are not modelled.
- ReviewCard.Initial: a string is a sequence of Unicode scalar values, so the first character is a whole scalar. `charAt(0)` takes the first UTF-16 code unit, which for a username starting outside the Basic Multilingual Plane (an emoji, say) is a lone high surrogate; that case is not modelled.
