# Modai account path and client session, in Dafny

Modai is a small fashion web app. Its server is Express and MongoDB. It
registers and logs in accounts, issues seven-day JWTs, and lets an account
patch its own record through `PUT /api/user/:id`, behind a bearer-token
gate. Its React client keeps the logged-in user in a context store that
mirrors the user and the token in `localStorage`. The store
applies every change optimistically and then reconciles with the server:
it takes the server's copy when the call succeeds and rolls back exactly
when it fails. The profile, shop, generator and sign-in pages produce the
patches this store sends. The shop and the generator draw from a catalogue
of 75 products that is generated at start-up.

This project models that core and proves properties about it:

- **The server.** The zod schemas are total parsing functions with zod's
  issue order (`Validators`). The mongoose schema is the setters, the
  defaults, the required checks and `toObject` (`UserModel`). The bearer
  gate is a pure function plus an imperative middleware that writes
  `req.auth` (`AuthGate`). The routes are methods of an `AccountServer`
  class over a map from id to account (`Server`). The store invariant is
  that ids match, e-mails are normalised and e-mails are unique. Every
  route preserves it.
- **The client.** `localStorage` is a class over a string map
  (`BrowserStorage`). The module-level token belongs to the API client
  class (`Api`), as do the headers and bodies it builds and the error text
  of a failed reply. The context store is a `Session` class whose
  `UpdateUser` is proved against one state function, `AfterUpdate`
  (`AppContext`).
- **The pages.** The profile page's handlers and its plan/consent rule are
  in `Profile`. The favourites toggle and the style filter are in `Shop`.
  The candidates, the picks and the history prepend are in `Generator`. The
  password pre-check and `handleSubmit` are in `AuthPage`.
- **The catalogue.** `generateProducts` runs three nested loops with one
  counter, proved equal to a position-by-position specification. Lemmas
  give the product count, unique ids, price ranges, and exactly five
  candidates per (type, style) pair (`Catalogue`).
- **Across the wire.** `Protocol` proves these facts. A token the server
  issues, as the client sends it, opens the gate. Products and outfits
  survive the encoder and the schema unchanged. The sign-up payload passes
  the server exactly when the client's rule passes. Every update body the
  client sends passes the update schema exactly when its name and e-mail
  pass, and reads back as the patch. The downgrade patch
  loses its `undefined` fields on the wire, so the server keeps the billing
  data.

Outside code becomes parameters:

- **Server libraries.** bcrypt, `jsonwebtoken`, zod's e-mail check,
  mongoose's ObjectId check and its Date cast are the function fields of
  `Libraries.ServerLibs`. Where a lemma needs their behaviour, it names a
  hypothesis: `JwtSound` or `BcryptSound`.
- **Remote calls.** The result of a remote call is an `outcome` parameter.
- **Clocks and random numbers.** Clocks are parameters, and so are the
  numbers `Math.random` draws.
- **Prompts.** The answer to `window.confirm` is a `confirmed` parameter.

Three behaviours of the code are worth noting:

- The server does not enforce the free-plan/no-billing rule.
- The downgrade's `undefined` keys never reach the server.
- The `PUT` reply is the bare sanitised user, not `{user}`.

## Model

| member | source | states |
|---|---|---|
| Lists.Filter | src/pages/Shop.tsx:15 | `Array.prototype.filter`: the result has at most as many elements as the input |
| Lists.FilterMembers | src/pages/Shop.tsx:15 | an element is in the result exactly when it is in the input and kept |
| Lists.FilterAppend | src/pages/Shop.tsx:22 | filtering a concatenation is the concatenation of the filtered parts, so catalogue order is kept |
| Lists.FilterKeepsAll | src/pages/Shop.tsx:15 | when every element is kept the list is unchanged |
| Lists.FilterKeepsNone | src/pages/Generator.tsx:17 | when no element is kept the result is empty |
| Lists.FilterCount | src/pages/Shop.tsx:15 | each kept value occurs as often as in the input, every dropped value never |
| Text.TrimStart | server/index.js:37 | the result is a suffix of the input that does not start with white space |
| Text.TrimEnd | server/index.js:37 | the result is a prefix of the input that does not end with white space |
| Text.Trim | server/index.js:37 | `String.prototype.trim`: no white space at either end, never longer, and a string already trimmed is kept |
| Text.TrimIdempotent | server/middleware/auth.js:12 | trimming a trimmed string changes nothing |
| Text.ToLower | server/index.js:37 | `toLowerCase`: same length, each character lowered, no capital A-Z left |
| Text.LowerCharKeepsSpace | server/index.js:37 | lowering a character keeps it white space exactly when it was white space |
| Text.ToLowerIdempotent | server/index.js:37 | lowering twice is lowering once |
| Text.ToLowerKeepsTrimmed | server/index.js:37 | lowering a trimmed string leaves it trimmed |
| Text.LowerTrimStartCommute | server/models/User.js:5 | lowering and trimming the start commute |
| Text.LowerTrimEndCommute | server/models/User.js:5 | lowering and trimming the end commute |
| Text.LowerTrimCommute | server/models/User.js:5 | mongoose's `lowercase` then `trim` equals the handler's `trim` then `toLowerCase` |
| Text.Capitalize | src/constants/index.ts:72 | `charAt(0).toUpperCase() + slice(1)`: same length, first character upper-cased, the rest unchanged |
| Text.NatToString | src/constants/index.ts:71 | the decimal text of a counter: at least one digit, all digits, two or more exactly from 10 on |
| Text.NatToStringInjective | src/constants/index.ts:71 | different counter values give different texts |
| Types.ParseLanguage | src/types/index.ts:1 | the literal for a language is parsed back to it; parsing succeeds exactly on 'es', 'en', 'cn' |
| Types.ParseTheme | src/types/index.ts:2 | the same for 'light' and 'dark' |
| Types.ParsePlan | src/types/index.ts:3 | the same for 'free', 'premium', 'business' |
| Types.ParseStyle | src/types/index.ts:4 | the same for the five styles |
| Types.ParseProductType | src/types/index.ts:5 | the same for 'top', 'bottom', 'shoes' |
| Json.StringsToJson | src/services/api.ts:83 | an array of strings is written element by element, length kept |
| Json.OutfitsToJson | src/services/api.ts:83 | an array of outfits is written element by element, length kept |
| Json.BillingToJson | src/services/api.ts:83 | `JSON.stringify` of a billing record is an object holding billing keys only |
| Json.BillingKeysDefined | src/services/api.ts:83 | a billing key is written exactly when its field is defined, as that field's string; `undefined` fields are dropped |
| Json.BillingToJsonEmpty | src/services/api.ts:83 | the billing record is written as `{}` exactly when none of its fields is defined |
| Validators.PasswordPatternMeaning | server/validators/userValidators.js:3-5 | the regular expression accepts exactly the strings of 8 or more ASCII letters and digits with at least one A-Z and one digit |
| Validators.StringValue | server/validators/userValidators.js:29 | `z.string()` accepts exactly a string, with its value; otherwise one issue, "Required" when the key is missing |
| Validators.PasswordValue | server/validators/userValidators.js:3-5 | `passwordSchema` accepts exactly a strong password, unchanged; otherwise one issue |
| Validators.TrimmedNonEmpty | server/validators/userValidators.js:8 | `string().trim().min(1, msg)` accepts exactly a string that is non-empty once trimmed, yielding the trimmed text |
| Validators.TrimmedEmail | server/validators/userValidators.js:9 | `string().trim().email(msg)` accepts exactly a string whose trimmed form passes the e-mail check, yielding the trimmed text |
| Validators.NonEmptyString | server/validators/userValidators.js:15 | `string().min(1, msg)` accepts exactly a non-empty string, untrimmed |
| Validators.TrimmedString | server/validators/userValidators.js:20 | `string().trim()` accepts exactly a string, yielding it trimmed |
| Validators.EnumValue | server/validators/userValidators.js:51-54 | `z.enum` accepts exactly a string among the literals, yielding the parsed value |
| Validators.BoolValue | server/validators/userValidators.js:55 | `z.boolean()` accepts exactly a boolean |
| Validators.NumberValue | server/validators/userValidators.js:31 | `z.number()` accepts exactly a number |
| Validators.Opt | server/validators/userValidators.js:49-59 | `.optional()`: a missing key is valid and absent; a present key is parsed by the inner schema, with its issues |
| Validators.StringItems | server/validators/userValidators.js:57 | an array of strings is valid exactly when every item is a string, the values kept in order |
| Validators.StringArray | server/validators/userValidators.js:57 | `z.array(z.string())` accepts exactly an array of strings, and yields their texts in order |
| Validators.ParseProduct | server/validators/userValidators.js:28-37 | `productSchema` accepts exactly an object with string id, name, brand, image and url, a numeric price, and type and style among their literals |
| Validators.ProductAt | server/validators/userValidators.js:41-43 | a nested product: missing gives "Required", present is parsed by the product schema |
| Validators.ParseOutfit | server/validators/userValidators.js:39-45 | `outfitSchema` accepts exactly an object with string id and dateCreated and three valid products |
| Validators.Items | server/validators/userValidators.js:57-58 | `z.array(schema)` is valid exactly when every item is, the parsed items kept in order; a failure carries issues |
| Validators.OutfitItems | server/validators/userValidators.js:58 | the outfits are valid exactly when each one is, the parsed outfits kept in order |
| Validators.OutfitArray | server/validators/userValidators.js:58 | `z.array(outfitSchema)` accepts exactly an array whose every item passes the outfit schema, and yields the parsed outfits in order |
| Validators.ParseBilling | server/validators/userValidators.js:18-26 | `billingSchema` accepts exactly an object whose five keys, where present, hold strings, yielding them trimmed; other keys are ignored |
| Validators.ParseRegister | server/validators/userValidators.js:7-11 | `registerSchema` accepts exactly a trimmed non-empty name, an e-mail whose trimmed form passes and a strong password, and yields the trimmed values; an empty name's issue comes first |
| Validators.ParseLogin | server/validators/userValidators.js:13-16 | `loginSchema` accepts exactly a passing e-mail and any non-empty password, with no strength rule |
| Validators.PreferenceFields | server/validators/userValidators.js:49-54 | valid exactly when the text and the enumeration keys are; yields the trimmed name and e-mail and the parsed literals, absent keys absent |
| Validators.RecordFields | server/validators/userValidators.js:55-59 | valid exactly when the consent and collection keys are; yields their values, absent keys absent |
| Validators.TextFields | server/validators/userValidators.js:49-50 | valid exactly when a present name is a string not empty once trimmed and a present e-mail is a string whose trimmed form passes; yields both trimmed, absent keys absent; a failure carries issues |
| Validators.OptEnum | server/validators/userValidators.js:51-54 | `z.enum(...).optional()` at a key: valid exactly when the key is absent or holds one of the literals, yielding that literal's value or nothing |
| Validators.ChoiceFields | server/validators/userValidators.js:51-54 | valid exactly when each present plan, style, theme and language is one of its literals; yields each parsed literal, absent keys absent; a failure carries issues |
| Validators.ConsentFields | server/validators/userValidators.js:55-56 | valid exactly when a present consent is a boolean and a present consentDate a string; yields them, absent keys absent; a failure carries issues |
| Validators.CollectionFields | server/validators/userValidators.js:57-59 | valid exactly when present favorites are an array of strings, present outfits an array of valid outfits and present billing a billing object; yields the texts, the parsed outfits and the trimmed billing; a failure carries issues |
| Validators.UpdateFields | server/validators/userValidators.js:47-60 | every field is optional and constrained when present: valid exactly when each present key holds what its schema accepts, yielding `UpdateValue` of the body |
| Validators.UpdatePresence | server/validators/userValidators.js:47-60 | the parsed update has a field exactly where the body has the key |
| Validators.UpdateEnumsChecked | server/validators/userValidators.js:51-54 | a plan, style, theme or language outside its literals makes the update invalid |
| Validators.UpdateTextChecked | server/validators/userValidators.js:49-50 | an accepted name is trimmed and non-empty; an accepted e-mail is trimmed and passes the check |
| Validators.ParseUpdate | server/validators/userValidators.js:47-61 | a non-object fails with one type issue; valid exactly when the body is an object of known keys each holding what its schema accepts, yielding `UpdateValue` of it; `.strict()`: an unknown key always fails, its issue last |
| Validators.EmptyUpdateIsValid | server/validators/userValidators.js:47-61 | the empty update is valid and changes nothing |
| Validators.ValidateSchema | server/validators/userValidators.js:63-74 | success carries the data; failure carries the first issue's message, or 'Validation failed' when there is none; the message is never empty |
| UserModel.EmailSetter | server/models/User.js:5 | a stored e-mail is trimmed and has no capital letters, the same as `trim().toLowerCase()` |
| UserModel.NameSetter | server/models/User.js:4 | a stored name is trimmed |
| UserModel.NewAccount | server/models/User.js:3-22 | a new record has the set name, e-mail and password, plan free, style casual, theme light, language es, consent false, no consent date, no billing, and empty lists |
| UserModel.PathValues | server/models/User.js:3-22 | the paths every document holds, with its id, e-mail and password |
| UserModel.ToObject | server/models/User.js:14-21 | `toObject` adds `consentDate` exactly when it is set and `billing` exactly when it is set and has a defined field (the default `minimize` drops an empty nested object, so a set `{}` record is left out), each holding its stored value |
| AuthGate.JwtSecret | server/middleware/auth.js:3 | the secret is the environment value when it is non-empty, otherwise the development string |
| AuthGate.BearerToken | server/middleware/auth.js:6-12 | a token is found exactly when the header starts with "Bearer " (case-sensitive); it is the rest of the header trimmed, so it has no white space at either end |
| AuthGate.BearerRoundTrip | server/middleware/auth.js:8-12 | `Bearer ${t}` with a trimmed `t` is parsed back to exactly `t` |
| AuthGate.LowerCaseSchemeRejected | server/middleware/auth.js:8 | a "bearer " header is refused |
| AuthGate.Gate | server/middleware/auth.js:5-23 | with no bearer header, 401 'Authentication required'; any verify failure gives 401 'Invalid token'; it passes exactly when verify accepts, with the payload's userId |
| AuthGate.Request.constructor | server/middleware/auth.js:5 | a request starts without `auth` |
| AuthGate.AuthMiddleware | server/middleware/auth.js:5-23 | on a pass `next` is called and `req.auth` is set to the payload's userId; on a reject the response is sent and `req.auth` is untouched |
| Server.NormalizeEmail | server/index.js:37 | the normalised address is trimmed and has no capitals |
| Server.NormalizeEmailIdempotent | server/index.js:37 | normalising twice is normalising once |
| Server.SettersKeepNormalizedEmail | server/index.js:62 | the schema setters leave a normalised address unchanged |
| Server.SanitizeUser | server/index.js:31-35 | the result has exactly the keys of the document minus `password` and `__v`, each with its value |
| Server.IssuedTokenAuthenticates | server/index.js:39-41 | an issued token opens the gate, as its account, up to seven days after issue |
| Server.IssuedTokenExpires | server/index.js:39-41 | seven days after issue the same token is refused with 'Invalid token' |
| Server.ApplyUpdate | server/index.js:128-147 | the merge changes exactly the present keys, through the setters; id, password and version stay |
| Server.EmptyUpdateKeepsAccount | server/index.js:143-147 | an empty update leaves a stored account as it is |
| Server.ApplyUpdateIdempotent | server/index.js:143-147 | applying an update twice is applying it once |
| Server.FindByIdAndUpdate | server/index.js:143-151 | `findByIdAndUpdate` succeeds exactly when the date casts, no required path is emptied, the id exists and the new e-mail is not another account's; the result is the merge |
| Server.UpdateErrorResponse | server/index.js:149-159 | a missing record gives 404, a duplicate key (11000) 409 'Email already registered', and a cast or validator error 500 |
| Server.StoreKeepsIds | server/models/User.js:3-22 | writing an account under its own id keeps every record under its id |
| Server.StoreKeepsNormalized | server/models/User.js:5 | writing an account with a normalised e-mail keeps all e-mails normalised |
| Server.StoreKeepsUnique | server/models/User.js:5 | writing an account whose e-mail no other account has keeps e-mails unique |
| Server.StoreKeepsValid | server/models/User.js:5 | the three together: such a write keeps the store invariant |
| Server.AccountServer.constructor | server/index.js:49 | the server starts with an empty store and the gate's secret |
| Server.AccountServer.Register | server/index.js:54-87 | the store invariant holds; 400 with the first message; 409 for an e-mail in use; otherwise the trimmed name, normalised e-mail and hashed password are stored and 201 {user, token} returned; a duplicate key is a 409 |
| Server.AccountServer.Login | server/index.js:89-111 | 400 with the first message; 404 when no account has the normalised e-mail; 400 'Invalid credentials' on a mismatch; otherwise 200 {user, token}; nothing changes |
| Server.AccountServer.UpdateHandler | server/index.js:113-161 | the status ladder 400 invalid id, 403 another account, 400 invalid payload, 409 e-mail of another id, 404 missing, then 200 with the bare sanitised user; the store invariant is kept and only the 200 path changes the store |
| Server.AccountServer.Commit | server/index.js:143-159 | `findByIdAndUpdate` and its answer: on success the record is replaced and 200 carries it sanitised; on an error nothing changes and the error's status is sent; the store invariant holds |
| Server.AccountServer.PutUser | server/index.js:113 | the gate, then the handler: a reject answers and changes nothing |
| BrowserStorage.LocalStorage.constructor | src/services/api.ts:22 | storage holds the given items |
| BrowserStorage.LocalStorage.GetItem | src/services/api.ts:22 | `getItem` yields the stored value, or null when the key is absent |
| BrowserStorage.LocalStorage.SetItem | src/services/api.ts:26 | `setItem` writes the one key |
| BrowserStorage.LocalStorage.RemoveItem | src/services/api.ts:31 | `removeItem` deletes the one key |
| Api.ParseErrorMessage | src/services/api.ts:34-41 | the error text is a non-empty `msg`, else a non-empty `error`, else 'Request failed', both for an object with neither and for a body that is not JSON |
| Api.HandleReply | src/services/api.ts:58-66 | a non-ok status is an error with that text; 204 resolves to null; otherwise to the body |
| Api.AuthEndpoint | src/services/api.ts:70 | login posts to /api/login, register to /api/register |
| Api.AuthPayloadJson | src/services/api.ts:73 | the payload has e-mail and password, and a name exactly when one is given |
| Api.WirePatch | src/services/api.ts:83 | the body is an object holding only keys of a user patch |
| Api.WireKeys | src/services/api.ts:83 | a patch key is on the wire exactly when it is set to a defined value; `undefined` billing and consentDate are dropped |
| Api.ApiClient.constructor | src/services/api.ts:22 | the in-memory token starts as the stored 'modai_token' |
| Api.ApiClient.SetAuthToken | src/services/api.ts:24-27 | the token and the stored key are both set to it |
| Api.ApiClient.ClearAuthToken | src/services/api.ts:29-32 | the token becomes null and the key is removed |
| Api.ApiClient.Headers | src/services/api.ts:43-51 | JSON content type under the caller's headers; `Authorization: Bearer <token>` whenever the token is non-empty, and no other Authorization unless the caller passes one |
| Api.ApiClient.UpdateUserRequest | src/services/api.ts:80-85 | a PUT of the stringified patch to /api/user/<id> with the request headers |
| Api.ApiClient.AuthRequest | src/services/api.ts:69-78 | a POST of the payload to the mode's endpoint; on success the returned token is stored, on failure nothing changes |
| AppContext.SpreadField | src/context/AppContext.tsx:88 | an absent key keeps the value, a set key replaces it, a present `undefined` clears it |
| AppContext.SpreadNoChange | src/context/AppContext.tsx:88 | spreading an empty patch changes nothing |
| AppContext.SpreadThen | src/context/AppContext.tsx:88 | spreading two patches in turn is spreading their combination |
| AppContext.SpreadIdempotent | src/context/AppContext.tsx:88 | spreading the same patch twice is spreading it once |
| AppContext.LanguageOf | src/context/AppContext.tsx:43 | the user's language, or 'es' |
| AppContext.ThemeOf | src/context/AppContext.tsx:44 | the user's theme, or 'light' |
| AppContext.ErrorMessage | src/context/AppContext.tsx:103 | an Error's message, otherwise the fallback text |
| AppContext.AfterUpdate | src/context/AppContext.tsx:84-110 | no user: nothing changes; no `_id`: the local merge stays, language and theme only if the patch has them; success: the server copy with its language and theme, no error; failure: exactly the snapshot, its language and theme, and the error message |
| AppContext.RejectionForgetsPatch | src/context/AppContext.tsx:102-107 | after a failure the state does not depend on the patch, and the user is the snapshot |
| AppContext.SavedIgnoresLocalMerge | src/context/AppContext.tsx:97-101 | after a success the state does not depend on the local merge |
| AppContext.StoredUser | src/context/AppContext.tsx:28-38 | no stored key or an empty one gives null; corrupt text gives null; otherwise the decoded user |
| AppContext.GetStoredUser | src/context/AppContext.tsx:28-38 | reads the stored user; corrupt text also removes the key, otherwise storage is untouched |
| AppContext.Flip | src/context/AppContext.tsx:113 | light and dark swap |
| AppContext.Session.constructor | src/context/AppContext.tsx:41-62 | the initial user is the stored one, language and theme from it with the defaults, no error; afterwards storage mirrors the user |
| AppContext.Session.Persist | src/context/AppContext.tsx:56-62 | a user is written to 'modai_user', no user removes the key |
| AppContext.Session.Login | src/context/AppContext.tsx:64-70 | token and user set, no error, language and theme from the user with the defaults |
| AppContext.Session.Logout | src/context/AppContext.tsx:72-78 | token cleared, no user, no error, default language and theme |
| AppContext.Session.ClearLastError | src/context/AppContext.tsx:80-82 | only the error is cleared |
| AppContext.Session.UpdateUser | src/context/AppContext.tsx:84-110 | the new state is `AfterUpdate` of the old one; the request is the PUT of the patch to the user's URL, sent exactly when the user has an `_id`; the error is re-raised exactly when that request is rejected; the token and the other storage keys stay |
| AppContext.Session.ApplyLocally | src/context/AppContext.tsx:87-92 | the optimistic step: the user becomes the patch spread over it, language and theme change only when the patch carries them, nothing else changes |
| AppContext.Session.Settle | src/context/AppContext.tsx:96-109 | the try/catch: success takes the server copy, failure restores the snapshot and raises the error |
| AppContext.Session.ToggleTheme | src/context/AppContext.tsx:112-118 | the theme flips; with a user the state is that after `updateUser` of the flipped theme, and the request sent is the PUT of that patch; a failure is swallowed |
| AppContext.Session.SetLanguage | src/context/AppContext.tsx:120-125 | the language is set; with a user the state is that after `updateUser` of the language, and the request sent is the PUT of that patch; a failure is swallowed |
| Profile.NameToSave | src/pages/Profile.tsx:33 | the trimmed form name, or the current name when that is empty |
| Profile.ClearingEstablishesRule | src/pages/Profile.tsx:59 | the local merge of the clearing patch leaves a free user with no billing, no consent and no consent date |
| Profile.ConsentEstablishesRule | src/pages/Profile.tsx:82-86 | the local merge of a consent for a paid plan keeps the plan/consent rule |
| Profile.PaidPlanKeepsRule | src/pages/Profile.tsx:68-70 | a bare paid-plan patch, sent only with consent given, keeps the rule |
| Profile.BillingKeepsRule | src/pages/Profile.tsx:46 | saving billing on a paid plan keeps the rule |
| Profile.ProfilePage.constructor | src/pages/Profile.tsx:7-15 | the form starts from the user, the billing draft from its billing or empty, nothing pending, neither save in progress |
| Profile.ProfilePage.SetSuccess | src/pages/Profile.tsx:25-28 | clears the session error and shows the message |
| Profile.ProfilePage.Send | src/pages/Profile.tsx:36-37 | sends the patch by `updateUser`, the request being the PUT of that patch; on success the message shows, on a failure the status is cleared; no other page field changes |
| Profile.ProfilePage.SaveProfileData | src/pages/Profile.tsx:30-41 | sends `{name}` with the name to save; editing ends and the success text shows only when the save went through; the other page fields stay |
| Profile.ProfilePage.SaveBillingData | src/pages/Profile.tsx:43-53 | sends `{billing}` with the draft as a whole; the success text shows only when the save went through; the other page fields stay |
| Profile.ProfilePage.HandlePlanChange | src/pages/Profile.tsx:55-76 | a confirmed downgrade sends the clearing patch and empties the draft on success; an unconfirmed one changes nothing; a paid plan without consent records the plan and opens the modal, sending nothing; with consent it sends `{plan}`; editing and the form stay |
| Profile.ProfilePage.ConfirmConsent | src/pages/Profile.tsx:78-92 | closes the modal; with a pending plan it sends the plan, consent true and the date, otherwise nothing; the pending plan and the other fields stay |
| Profile.ProfilePage.WithdrawConsent | src/pages/Profile.tsx:94-109 | when confirmed, sends the clearing patch and empties the draft on success; when not, nothing changes; the modal, the pending plan and the form stay |
| Shop.ToggledFavorites | src/pages/Shop.tsx:12-18 | a favourite is removed, every occurrence; a non-favourite is appended; other ids keep their membership |
| Shop.RemovalKeepsOrder | src/pages/Shop.tsx:15 | removal keeps the other favourites in their order |
| Shop.ToggleTwiceRestores | src/pages/Shop.tsx:12-18 | toggling an absent id twice restores the list |
| Shop.ToggleTwiceSameMembers | src/pages/Shop.tsx:12-18 | toggling twice keeps every id's membership |
| Shop.FilteredProducts | src/pages/Shop.tsx:22 | 'all' is the whole catalogue; a style gives exactly the products of that style |
| Shop.ToggleFavorite | src/pages/Shop.tsx:10-20 | with no user only the alert; otherwise the state is that after `updateUser` of the toggled list, and the request sent is the PUT of that list |
| Generator.Candidates | src/pages/Generator.tsx:17-19 | the candidates are exactly the catalogue products of the type and the style |
| Generator.NewOutfit | src/pages/Generator.tsx:23-33 | each piece comes from its candidate list; id and date are the clock's |
| Generator.WithNewest | src/pages/Generator.tsx:40 | the history grows by one, the new outfit first and the old history after it |
| Generator.OutfitMatchesStyle | src/pages/Generator.tsx:17-31 | a generated outfit is a catalogue top, bottom and shoes, all of the selected style |
| Generator.GeneratorPage.constructor | src/pages/Generator.tsx:8-10 | style casual, not generating, no outfit |
| Generator.GeneratorPage.Begin | src/pages/Generator.tsx:13-19 | generating set, outfit cleared, the three candidate lists computed |
| Generator.GeneratorPage.Complete | src/pages/Generator.tsx:22-42 | the outfit is set and generating cleared; with a user, the history with the new outfit first is what `updateUser` sends; with none nothing is sent |
| AuthPage.ClientRuleMatchesServer | src/pages/Auth.tsx:20-24 | `validatePassword` accepts exactly what `passwordSchema` accepts |
| AuthPage.SubmitError | src/pages/Auth.tsx:49 | the error's message, or the fallback text when it is empty |
| AuthPage.SubmitPayload | src/pages/Auth.tsx:39-43 | the payload always carries the name, also at login |
| AuthPage.AuthForm.constructor | src/pages/Auth.tsx:13-18 | login mode, empty fields, no error |
| AuthPage.AuthForm.HandleSubmit | src/pages/Auth.tsx:26-53 | a weak password in sign-up mode gives its message with no request; otherwise the request is sent; success logs in and goes to the profile, storage gaining exactly the token and the encoded user; failure shows the message or the fallback; submitting is reset |
| AuthPage.AuthForm.Submit | src/pages/Auth.tsx:37-52 | the POST goes out; success logs in and routes to the profile, storage gaining exactly the token and the encoded user; failure shows the error and changes no session state; submitting is cleared either way |
| AuthPage.AuthForm.Enter | src/pages/Auth.tsx:45-46 | `login` with the response, then the profile route; storage gains exactly the token and the encoded user, other keys kept |
| Catalogue.Products | src/constants/index.ts:62-113 | 75 products; position k holds the entry for k |
| Catalogue.PushRun | src/constants/index.ts:68-79 | one five-iteration loop extends the catalogue built so far by the next five entries and advances the counter by five |
| Catalogue.GenerateProducts | src/constants/index.ts:62-111 | the nested loops with the shared counter produce exactly `Products` of the draws |
| Catalogue.ProductShape | src/constants/index.ts:60-106 | prices in 20..69, 30..89 and 50..149 by type; a brand from the list; url '#'; the id starts with its type's prefix; the name starts with the capitalised style and " Top ", " Pants " or " Shoes " |
| Catalogue.ProductIdsDiffer | src/constants/index.ts:71-98 | ids built from different counter values differ, whatever their types |
| Catalogue.IdsUnique | src/constants/index.ts:64-98 | all 75 ids are distinct |
| Catalogue.ProductsLaidOut | src/constants/index.ts:59-108 | for each style in order, five tops, then five bottoms, then five shoes |
| Catalogue.CandidatesAreBlock | src/pages/Generator.tsx:17-19 | the candidates for a type and style are exactly the five products of that style's loop for that type |
| Protocol.ProductRoundTrip | server/validators/userValidators.js:28-37 | a product the client writes is read back unchanged by the product schema |
| Protocol.OutfitRoundTrip | server/validators/userValidators.js:39-45 | an outfit the client writes is read back unchanged by the outfit schema |
| Protocol.ClientHeaderOpensGate | src/services/api.ts:49-51 | the header the client builds around an issued token opens the gate as that account until expiry |
| Protocol.SignUpPayloadAccepted | src/pages/Auth.tsx:39-43 | the sign-up payload passes the register schema exactly when the name and e-mail pass and the client's password rule holds |
| Protocol.WireRoundTrip | src/services/api.ts:80-85 | every body `updateUserRequest` sends passes `updateUserSchema` exactly when its name and e-mail pass, and is then read back as the patch's defined keys, with name, e-mail and billing strings trimmed |
| Protocol.WireText | server/validators/userValidators.js:49-50 | the wire name and e-mail pass exactly when the patch's do, and are read back trimmed |
| Protocol.WireChoices | server/validators/userValidators.js:51-54 | the wire plan, style, theme and language always pass and are read back unchanged |
| Protocol.WireConsent | server/validators/userValidators.js:55-56 | the wire consent and a defined consent date pass and are read back unchanged |
| Protocol.WireCollections | server/validators/userValidators.js:57-59 | the wire favourites, outfits and a defined billing pass and are read back, billing trimmed |
| Protocol.WireFavorites | server/validators/userValidators.js:57 | the wire favourites are read back unchanged |
| Protocol.WireOutfits | server/validators/userValidators.js:58 | the wire outfits are read back unchanged |
| Protocol.WireBilling | server/validators/userValidators.js:59 | a defined billing on the wire is read back trimmed; an `undefined` one is absent |
| Protocol.StringsRoundTrip | server/validators/userValidators.js:57 | a list of strings the client writes is read back by the string-array schema |
| Protocol.OutfitsRoundTrip | server/validators/userValidators.js:58 | a list of outfits the client writes is read back by the outfit-array schema |
| Protocol.BillingRoundTrip | server/validators/userValidators.js:18-26 | a billing record the client writes passes the billing schema, each field read back trimmed |
| Protocol.ClearingPatchOnTheWire | src/pages/Profile.tsx:59 | the server parses the downgrade as plan free and consent false only |
| Protocol.DowngradeKeepsServerBilling | server/index.js:128-147 | the server's merge of that update keeps the stored billing and consent date |

## Left out

- Rendering, routing, translations, reviews and the team table are presentation only and are not modelled.
- Express, CORS, `mongoose.connect`, `app.listen` and the 500 handler's logging are I/O plumbing. The rate limiter is library configuration: a 15-minute window and at most 30 requests.
- bcrypt, JWT signing and verification, zod's e-mail pattern, the ObjectId format and the Date cast are abstract functions. JWT behaviour is used only under the `JwtSound` hypothesis.
- `fetch`, the base URL, and response and stored-user JSON parsing are abstract. A stored user goes through a `UserCodec` parameter. A reply body arrives already decoded, or as absent when it is not JSON.
- The theme effect's class toggle on `document.documentElement` is not modelled.
- Overlapping `updateUser` calls and their last-write-wins races are not modelled.
- Server requests run one at a time. Interleaved requests are not modelled, such as a second registration of the same e-mail between `findOne` and `save`, which the source answers with the 11000 conflict. Register reaches that 409 only when the generated `newId` is already taken, which stands for the duplicate-key failure of the insert.
- Api.ApiClient.Headers: the caller's headers are merged under the built ones. In the source, `{ headers, ...options }` would let an `options.headers` replace them outright. Neither caller passes headers, so both behave the same.
- Generator.GeneratorPage.Complete: the delayed callback's `updateUser` merges into the current session. The source's closure would merge into the user seen at click time, so the model assumes nothing changed during the delay.
- Generator.NewOutfit: requires the drawn indices to be in range. This holds because `Catalogue.CandidatesAreBlock` gives five candidates each.
- The Profile page's effect that re-fills the form and the billing draft when the user changes is not modelled.
- Date and time values, `Date.now` and `toISOString`, are arbitrary strings. Mongoose's normalisation of a stored date is not modelled.
- Text.ToLower: lowers ASCII and Latin-1 letters only. Other Unicode case mappings are not modelled.
- Product prices are integers. Floating-point numbers and `toFixed` formatting are not modelled.
- Validators.ParseUpdate: the unknown-key issue text is a fixed string. It does not list the unrecognised keys the way zod does.
- Server.UpdateErrorResponse: the cast and validator 500 bodies carry fixed texts rather than mongoose's full messages.
- Server.AccountServer.Register: the 500 body for a failed save is the fixed text 'User validation failed'; mongoose's ValidationError message also names the failing paths.
- Api.HandleReply: an ok body that is not JSON raises a fixed message in place of the engine's `SyntaxError` text.
- Api.ParseErrorMessage: a `msg` or `error` value that is not a string is treated as missing; in the source a truthy non-string `msg` becomes the Error's text.
- Timestamps (`createdAt`, `updatedAt`) and mongoose's `__v` bumping are not modelled. `__v` stays 0.
- Catalogue.ProductShape: states the prefix of each name, not its trailing number. Each number is given position by position by `Catalogue.Products`.
