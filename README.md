# Inventory app core, modelled in Dafny

This project models the core of an Android app, written in Kotlin, for keeping a product inventory behind a login. It covers:

- **Use cases.** Login, registration, profile and products. Each validates its input with an ordered chain of checks, each check with a fixed Spanish message, before it calls a repository.
- **Repositories.** They build the HTTP requests (the `token=…` cookie, the multipart quantity text, the profile body map). They turn a Retrofit response or a thrown exception into the app's `Result` (`Success` / `Error` / `Loading`).
- **View models.** Each holds a single `uiState` that its actions move through `Initial`, `Loading`, success and error.
- **The preferences manager.** Typed keys with per-key defaults, and the session and total usage-time accumulator with its `hh:mm:ss` rendering.
- **The notification banner's state.**
- **The add and edit product dialogs.** Their field filters and confirm-button validation.

Modules follow the source files one for one:

- `Results`, `Models` and `Transport` are the shared values.
- `Text` holds Kotlin's `isBlank`, `isDigit`, `toString` and `toIntOrNull`.
- `Guards` is the reference reading of a validation chain. Every use-case operation is proved equal to its own chain, read in source order, and `Guards.Run` connects a verdict to the repository call it guards.

Pure code is written as functions. Objects that update fields are classes with `modifies` clauses:

- A view-model action is split into `Begin…`, which publishes `Loading`, and `Complete…`, which receives what the use case answered.
- The clock is the parameter `now`.
- The email pattern is the parameter `isValidEmail`.

## Model

| member | source | states |
|---|---|---|
| Text.NatToString | app/src/main/java/com/example/proyecto/data/repository/ProductRepository.kt:41 | the decimal text of a natural number is non-empty, all digits, and one character exactly below 10 |
| Text.IntToString | app/src/main/java/com/example/proyecto/data/repository/ProductRepository.kt:41 | `Int.toString` is non-empty and starts with '-' exactly for negative values |
| Text.ParseInt | app/src/main/java/com/example/proyecto/ui/screens/product/ProductScreen.kt:312 | `toIntOrNull` yields only values inside the 32-bit `Int` range, only for non-empty text, and a non-negative value when there is no minus sign |
| Text.DigitsValueOfNatToString | app/src/main/java/com/example/proyecto/data/repository/ProductRepository.kt:41 | reading back the digits of n gives n |
| Text.ParseIntOfIntToString | app/src/main/java/com/example/proyecto/ui/screens/product/ProductScreen.kt:341 | `toIntOrNull(toString(i)) == i` for every `Int` |
| Text.IntToStringInjective | app/src/main/java/com/example/proyecto/data/repository/ProductRepository.kt:111 | distinct integers render as distinct text |
| Text.ParseIntOfDigits | app/src/main/java/com/example/proyecto/ui/screens/product/ProductScreen.kt:312 | digit-only text parses exactly when non-empty and at most `Int.MAX_VALUE`, and then to its non-negative value |
| Text.Utf16Length | app/src/main/java/com/example/proyecto/domain/usecase/RegisterUseCase.kt:27 | `String.length` counts UTF-16 units: between the number of characters and twice that, and exactly the number of characters when none is outside the Basic Multilingual Plane |
| Text.Utf16LengthOfEmoji | app/src/main/java/com/example/proyecto/domain/usecase/RegisterUseCase.kt:27 | an emoji counts as two units, so three emoji have length 6 |
| Guards.Evaluate | app/src/main/java/com/example/proyecto/domain/usecase/RegisterUseCase.kt:16-30 | a check chain delegates iff no check fires, passes its arguments unchanged, and otherwise reports the message of the first check that fires |
| Guards.EvaluateStep | app/src/main/java/com/example/proyecto/domain/usecase/RegisterUseCase.kt:16-30 | one step of the chain: the head check fires, or the rest decides |
| Guards.Run | app/src/main/java/com/example/proyecto/domain/usecase/LoginUseCase.kt:9-17 | a rejection becomes `Result.Error(message)` without consulting the repository; a delegation returns the repository's reply unchanged |
| LoginUseCase.Invoke | app/src/main/java/com/example/proyecto/domain/usecase/LoginUseCase.kt:8-18 | blank email or password gives the fill-all-fields error; otherwise a malformed email gives the invalid-email error; otherwise `login(email, password)` is called; each in both directions |
| LoginUseCase.InvokeFollowsGuardOrder | app/src/main/java/com/example/proyecto/domain/usecase/LoginUseCase.kt:9-17 | `invoke` equals its two checks read in source order |
| LoginUseCase.InvokeReachesRepositoryOnlyWhenValid | app/src/main/java/com/example/proyecto/domain/usecase/LoginUseCase.kt:8-18 | the full `invoke`: a failed check answers with its message without calling `login`; otherwise `login`'s reply is returned unchanged |
| RegisterUseCase.Invoke | app/src/main/java/com/example/proyecto/domain/usecase/RegisterUseCase.kt:9-40 | each of the four messages is returned exactly when its arm is the first whose condition holds (the password length counted in UTF-16 units); otherwise `register` receives a `RegisterUser` without the confirmation |
| RegisterUseCase.InvokeFollowsGuardOrder | app/src/main/java/com/example/proyecto/domain/usecase/RegisterUseCase.kt:16-37 | `invoke` equals its four `when` arms read in source order, delegating the built `RegisterUser` |
| RegisterUseCase.MismatchReportedBeforeLength | app/src/main/java/com/example/proyecto/domain/usecase/RegisterUseCase.kt:24-29 | different passwords are reported as a mismatch even when both are too short |
| RegisterUseCase.EmojiPasswordIsLongEnough | app/src/main/java/com/example/proyecto/domain/usecase/RegisterUseCase.kt:27-39 | a three-emoji password (length 6 in UTF-16 units) passes the length check and reaches `register` |
| RegisterUseCase.InvokeReachesRepositoryOnlyWhenValid | app/src/main/java/com/example/proyecto/domain/usecase/RegisterUseCase.kt:9-40 | the full `invoke`: `register` is called with the built user only when every arm passes; otherwise the answer is one of the four fixed errors |
| ProfileUseCase.GetProfile | app/src/main/java/com/example/proyecto/domain/usecase/ProfileUseCase.kt:8-13 | a blank user id or token is refused with the credentials error, and otherwise both are forwarded |
| ProfileUseCase.GetProfileFollowsGuardOrder | app/src/main/java/com/example/proyecto/domain/usecase/ProfileUseCase.kt:8-13 | `getProfile` equals its single check read by the reference chain |
| ProfileUseCase.UpdateProfile | app/src/main/java/com/example/proyecto/domain/usecase/ProfileUseCase.kt:15-37 | credentials, then blank names, then first-name length (< 2 UTF-16 units), then last-name length, each message iff its arm is first to hold; otherwise the four arguments are forwarded |
| ProfileUseCase.UpdateProfileFollowsGuardOrder | app/src/main/java/com/example/proyecto/domain/usecase/ProfileUseCase.kt:21-36 | `updateProfile` equals its `when` arms read in source order |
| ProfileUseCase.UpdateProfileReachesRepositoryOnlyWhenValid | app/src/main/java/com/example/proyecto/domain/usecase/ProfileUseCase.kt:15-37 | the full `updateProfile`: the repository is called with the four arguments only when every arm passes; otherwise the answer is one of the four fixed errors |
| ProductUseCase.GetProducts | app/src/main/java/com/example/proyecto/domain/usecase/ProductUseCase.kt:8-10 | the token goes to the repository with no check at all |
| ProductUseCase.CreateProduct | app/src/main/java/com/example/proyecto/domain/usecase/ProductUseCase.kt:12-20 | a blank name is refused first, then a negative quantity; otherwise the arguments are forwarded; both directions |
| ProductUseCase.UpdateProduct | app/src/main/java/com/example/proyecto/domain/usecase/ProductUseCase.kt:22-30 | the same two checks as create; the product id is forwarded unchecked |
| ProductUseCase.DeleteProduct | app/src/main/java/com/example/proyecto/domain/usecase/ProductUseCase.kt:32-37 | refused iff the product id is blank |
| ProductUseCase.UpdateValidatesLikeCreate | app/src/main/java/com/example/proyecto/domain/usecase/ProductUseCase.kt:12-30 | create and update accept the same inputs and give the same messages; the id never affects the decision |
| ProductUseCase.OperationsFollowGuardOrder | app/src/main/java/com/example/proyecto/domain/usecase/ProductUseCase.kt:8-37 | each of the four operations equals its checks read in source order; `getProducts` has none |
| ProductUseCase.CreateReachesRepositoryOnlyWhenValid | app/src/main/java/com/example/proyecto/domain/usecase/ProductUseCase.kt:12-20 | the full `createProduct`: the repository is called only for a non-blank name and a non-negative quantity; otherwise the first failing check's message is returned |
| Transport.Cookie | app/src/main/java/com/example/proyecto/data/repository/ProductRepository.kt:20 | the `token=…` cookie always reads back as the token it was built from |
| ProductRepository.HandleHttpError | app/src/main/java/com/example/proyecto/data/repository/ProductRepository.kt:103-113 | always an error: 400, 401, 403, 404, 409 and 500 each get their own fixed message; any other code gives "Error desconocido: " followed by the code |
| ProductRepository.HttpErrorCodeRoundTrip | app/src/main/java/com/example/proyecto/data/repository/ProductRepository.kt:103-113 | the status code can be recovered from every `handleHttpError` message, so no two codes share a message |
| ProductRepository.HandleException | app/src/main/java/com/example/proyecto/data/repository/ProductRepository.kt:115-122 | never a success; an `HttpException` is reported like a response with its code; unknown host and timeout get their own messages; anything else gives "Error: " plus the message, with null shown as "null" |
| ProductRepository.ReceiveBody | app/src/main/java/com/example/proyecto/data/repository/ProductRepository.kt:18-88 | success iff a 2xx response has a body, and then the data is that body; a 2xx without a body gives the empty-response error; another code gives `handleHttpError`; an exception gives `handleException`; never `Loading` |
| ProductRepository.ReceiveDelete | app/src/main/java/com/example/proyecto/data/repository/ProductRepository.kt:90-101 | success iff any 2xx response arrives, whatever its body; failures are mapped as for the other operations |
| ProductRepository.RequestsCarryArguments | app/src/main/java/com/example/proyecto/data/repository/ProductRepository.kt:18-92 | every request's cookie carries the caller's token; the create/update quantity text parses back to the quantity; names, ids and image parts are passed unchanged |
| UserRepository.StatusError | app/src/main/java/com/example/proyecto/data/repository/UserRepository.kt:26 | a status failure message starts with "Error: " |
| UserRepository.ConnectionError | app/src/main/java/com/example/proyecto/data/repository/UserRepository.kt:30 | an exception's message starts with "Error de conexión: " |
| UserRepository.ReceiveLogin | app/src/main/java/com/example/proyecto/data/repository/UserRepository.kt:15-32 | success iff a 2xx response has a body; 400 and 401 have their own messages; another failure reports code and reason; an exception reports a connection error |
| UserRepository.Receive | app/src/main/java/com/example/proyecto/data/repository/UserRepository.kt:34-89 | `register`, `getProfile` and `updateProfile`: the same as login except that every failing status gets the generic code-and-reason message |
| UserRepository.LoginDiffersOnlyOn400And401 | app/src/main/java/com/example/proyecto/data/repository/UserRepository.kt:23-27 | login and the other operations map every call alike except 400/401 responses |
| UserRepository.ConnectionErrorsAreNotStatusErrors | app/src/main/java/com/example/proyecto/data/repository/UserRepository.kt:26-30 | an exception message can never equal a status message |
| UserRepository.UpdateProfileRequest | app/src/main/java/com/example/proyecto/data/repository/UserRepository.kt:71-78 | the update body is the map with exactly the keys firstName and lastName, holding the given names |
| UserRepository.ProfileRequestsCarryToken | app/src/main/java/com/example/proyecto/data/repository/UserRepository.kt:49-78 | profile requests carry the user id and a cookie that reads back as the token |
| LoginViewModel.LoginViewModel.constructor | app/src/main/java/com/example/proyecto/ui/screens/login/LoginViewModel.kt:24 | the state starts `Initial` |
| LoginViewModel.LoginViewModel.BeginLogin | app/src/main/java/com/example/proyecto/ui/screens/login/LoginViewModel.kt:28-29 | `login` publishes `Loading` first |
| LoginViewModel.LoginViewModel.CompleteLogin | app/src/main/java/com/example/proyecto/ui/screens/login/LoginViewModel.kt:30-46 | a success with auth data shows it; a success without auth data shows the auth-data error; an error shows its message verbatim |
| LoginViewModel.LoginViewModel.ResetState | app/src/main/java/com/example/proyecto/ui/screens/login/LoginViewModel.kt:49-51 | back to `Initial` from any state |
| RegisterViewModel.RegisterViewModel.constructor | app/src/main/java/com/example/proyecto/ui/screens/register/RegisterViewModel.kt:16 | the state starts `Initial` |
| RegisterViewModel.RegisterViewModel.BeginRegister | app/src/main/java/com/example/proyecto/ui/screens/register/RegisterViewModel.kt:26-27 | `register` publishes `Loading` first |
| RegisterViewModel.RegisterViewModel.CompleteRegister | app/src/main/java/com/example/proyecto/ui/screens/register/RegisterViewModel.kt:28-40 | a success shows the payload-free `Success`; an error shows its message verbatim |
| RegisterViewModel.RegisterViewModel.ResetState | app/src/main/java/com/example/proyecto/ui/screens/register/RegisterViewModel.kt:43-45 | back to `Initial` |
| HomeViewModel.HomeViewModel.constructor | app/src/main/java/com/example/proyecto/ui/screens/home/HomeViewModel.kt:17 | the state starts `Initial` |
| HomeViewModel.HomeViewModel.BeginLoadUserProfile | app/src/main/java/com/example/proyecto/ui/screens/home/HomeViewModel.kt:20-22 | `loadUserProfile` publishes `Loading` first |
| HomeViewModel.HomeViewModel.CompleteLoadUserProfile | app/src/main/java/com/example/proyecto/ui/screens/home/HomeViewModel.kt:23-34 | a success shows the user's data; an error shows its message |
| HomeViewModel.HomeViewModel.Logout | app/src/main/java/com/example/proyecto/ui/screens/home/HomeViewModel.kt:37-39 | back to `Initial` |
| EditProfileViewModel.EditProfileViewModel.constructor | app/src/main/java/com/example/proyecto/ui/screens/profile/EditProfileViewModel.kt:17 | the state starts `Initial` |
| EditProfileViewModel.EditProfileViewModel.Begin | app/src/main/java/com/example/proyecto/ui/screens/profile/EditProfileViewModel.kt:20-22 | both actions publish `Loading` first (`loadProfile` here, and `updateProfile` at line 39) |
| EditProfileViewModel.EditProfileViewModel.CompleteLoadProfile | app/src/main/java/com/example/proyecto/ui/screens/profile/EditProfileViewModel.kt:23-34 | a loaded profile shows as `Loaded`; an error shows its message |
| EditProfileViewModel.EditProfileViewModel.CompleteUpdateProfile | app/src/main/java/com/example/proyecto/ui/screens/profile/EditProfileViewModel.kt:37-52 | a saved profile shows as `UpdateSuccess`, never as `Loaded`; an error shows its message |
| EditProfileViewModel.EditProfileViewModel.ResetState | app/src/main/java/com/example/proyecto/ui/screens/profile/EditProfileViewModel.kt:54-56 | back to `Initial` |
| ProductViewModel.LoadedState | app/src/main/java/com/example/proyecto/ui/screens/product/ProductViewModel.kt:36-55 | the state `loadProducts` ends in: the list, the use case's message, `Loading` for a `Loading` reply, or the caught exception's message after "Error al cargar productos: "; never `Initial` |
| ProductViewModel.ProductViewModel.constructor | app/src/main/java/com/example/proyecto/ui/screens/product/ProductViewModel.kt:33 | the state starts `Initial` |
| ProductViewModel.ProductViewModel.Begin | app/src/main/java/com/example/proyecto/ui/screens/product/ProductViewModel.kt:38 | every action publishes `Loading` first |
| ProductViewModel.ProductViewModel.CompleteLoadProducts | app/src/main/java/com/example/proyecto/ui/screens/product/ProductViewModel.kt:39-53 | `loadProducts` ends in `LoadedState` of what it received |
| ProductViewModel.ProductViewModel.CompleteMutation | app/src/main/java/com/example/proyecto/ui/screens/product/ProductViewModel.kt:76-89 | the shared ending of the three mutations: a success ends in `LoadedState` of the reload; an error shows its message; an exception shows the given prefix plus its message |
| ProductViewModel.ProductViewModel.CompleteCreateProduct | app/src/main/java/com/example/proyecto/ui/screens/product/ProductViewModel.kt:57-91 | a success reloads the list rather than patching it; an error shows its message; a `Loading` reply shows `Loading`; an exception shows "Error al crear producto: " plus its message |
| ProductViewModel.ProductViewModel.CompleteUpdateProduct | app/src/main/java/com/example/proyecto/ui/screens/product/ProductViewModel.kt:93-134 | as create, with the update prefix: reload on success, the message on error, `Loading` on a `Loading` reply |
| ProductViewModel.ProductViewModel.CompleteDeleteProduct | app/src/main/java/com/example/proyecto/ui/screens/product/ProductViewModel.kt:136-160 | a blank id shows "ID de producto inválido" whatever the use case would say; otherwise reload on success, the message on error, `Loading` on a `Loading` reply, and the delete prefix for an exception |
| ProductViewModel.ProductViewModel.ResetState | app/src/main/java/com/example/proyecto/ui/screens/product/ProductViewModel.kt:173-175 | back to `Initial` |
| ProductViewModel.CreateThenReload | app/src/main/java/com/example/proyecto/ui/screens/product/ProductViewModel.kt:57-85 | after a successful create, the screen shows the reloaded list |
| Preferences.LocationText | app/src/main/java/com/example/proyecto/utils/EncryptedPreferencesManager.kt:88-91 | a saved location never reads as the "Desconocida" default |
| Preferences.AfterReset | app/src/main/java/com/example/proyecto/utils/EncryptedPreferencesManager.kt:111-117 | reset moves the start to now; with a positive start, the session time at now is unchanged; otherwise the accumulated time is kept |
| Preferences.AfterFlush | app/src/main/java/com/example/proyecto/utils/EncryptedPreferencesManager.kt:119-130 | total plus session time is conserved; a positive session time moves entirely into the total and the session restarts at now; otherwise nothing changes |
| Preferences.FlushIdempotent | app/src/main/java/com/example/proyecto/utils/EncryptedPreferencesManager.kt:119-130 | a second flush at the same instant changes nothing |
| Preferences.PauseThenResumeBanksBackgroundTime | app/src/main/java/com/example/proyecto/MainActivity.kt:155-166 | pause (flush) then resume (reset) banks the time spent paused as session time, which the next flush adds to the total |
| Preferences.Decompose | app/src/main/java/com/example/proyecto/utils/EncryptedPreferencesManager.kt:137-143 | for a non-negative total the hours, minutes (< 60) and seconds (< 60) add up to the total, to within one second below it |
| Preferences.DecomposeBounds | app/src/main/java/com/example/proyecto/utils/EncryptedPreferencesManager.kt:139-142 | the truncating `/` and `%` of the source give those bounds |
| Preferences.Pad2ReadsBack | app/src/main/java/com/example/proyecto/utils/EncryptedPreferencesManager.kt:143 | `%02d` of a natural number gives at least two digits, exactly two below 100, which read back as the number |
| Preferences.FormatDurationReadsBack | app/src/main/java/com/example/proyecto/utils/EncryptedPreferencesManager.kt:137-144 | the `hh:mm:ss` text has two colons and three digit fields that read back as hours, minutes < 60 and seconds < 60 matching the total to the second |
| Preferences.EncryptedPreferencesManager.constructor | app/src/main/java/com/example/proyecto/utils/EncryptedPreferencesManager.kt:43-44 | a manager starts its session at creation with nothing accumulated, over the persisted store |
| Preferences.EncryptedPreferencesManager.GetUserName | app/src/main/java/com/example/proyecto/utils/EncryptedPreferencesManager.kt:50-52 | a missing key reads as "" |
| Preferences.EncryptedPreferencesManager.GetDarkMode | app/src/main/java/com/example/proyecto/utils/EncryptedPreferencesManager.kt:58-60 | a missing key reads as false |
| Preferences.EncryptedPreferencesManager.GetLanguage | app/src/main/java/com/example/proyecto/utils/EncryptedPreferencesManager.kt:66-68 | a missing key reads as 0 |
| Preferences.EncryptedPreferencesManager.GetNotificationVolume | app/src/main/java/com/example/proyecto/utils/EncryptedPreferencesManager.kt:74-76 | a missing key reads as 50 |
| Preferences.EncryptedPreferencesManager.GetLastAccess | app/src/main/java/com/example/proyecto/utils/EncryptedPreferencesManager.kt:84-86 | a missing key reads as "Nunca" |
| Preferences.EncryptedPreferencesManager.GetLastLocation | app/src/main/java/com/example/proyecto/utils/EncryptedPreferencesManager.kt:93-95 | a missing key reads as "Desconocida" |
| Preferences.EncryptedPreferencesManager.GetTotalUsageTime | app/src/main/java/com/example/proyecto/utils/EncryptedPreferencesManager.kt:107-109 | a missing key reads as 0 |
| Preferences.EncryptedPreferencesManager.SaveUserName | app/src/main/java/com/example/proyecto/utils/EncryptedPreferencesManager.kt:46-48 | writes only its key; the getter then returns the saved value |
| Preferences.EncryptedPreferencesManager.SaveDarkMode | app/src/main/java/com/example/proyecto/utils/EncryptedPreferencesManager.kt:54-56 | writes only its key; the getter then returns the saved value |
| Preferences.EncryptedPreferencesManager.SaveLanguage | app/src/main/java/com/example/proyecto/utils/EncryptedPreferencesManager.kt:62-64 | writes only its key; the getter then returns the saved value |
| Preferences.EncryptedPreferencesManager.SaveNotificationVolume | app/src/main/java/com/example/proyecto/utils/EncryptedPreferencesManager.kt:70-72 | writes only its key; the getter then returns the saved value |
| Preferences.EncryptedPreferencesManager.UpdateLastAccess | app/src/main/java/com/example/proyecto/utils/EncryptedPreferencesManager.kt:78-82 | stores the formatted current date, and nothing else |
| Preferences.EncryptedPreferencesManager.SaveLastLocation | app/src/main/java/com/example/proyecto/utils/EncryptedPreferencesManager.kt:88-91 | stores the "Lat: …, Long: …" text, and nothing else |
| Preferences.EncryptedPreferencesManager.InitializeDefaultLocationIfNeeded | app/src/main/java/com/example/proyecto/utils/EncryptedPreferencesManager.kt:97-101 | writes the fixed coordinates only while the location reads as the default; afterwards it never does, so a second call changes nothing |
| Preferences.EncryptedPreferencesManager.SaveTotalUsageTime | app/src/main/java/com/example/proyecto/utils/EncryptedPreferencesManager.kt:103-105 | writes only its key; the getter then returns the saved value |
| Preferences.EncryptedPreferencesManager.GetCurrentSessionTime | app/src/main/java/com/example/proyecto/utils/EncryptedPreferencesManager.kt:132-135 | the session time is the accumulated time plus the time since the start |
| Preferences.EncryptedPreferencesManager.ResetSessionTime | app/src/main/java/com/example/proyecto/utils/EncryptedPreferencesManager.kt:111-117 | the session fields become `AfterReset` of the old ones; the store is untouched |
| Preferences.EncryptedPreferencesManager.UpdateUsageTime | app/src/main/java/com/example/proyecto/utils/EncryptedPreferencesManager.kt:119-130 | the session fields and stored total become `AfterFlush` of the old ones; only the total key is written; stored total plus session time is conserved |
| Preferences.EncryptedPreferencesManager.GetFormattedTotalUsageTime | app/src/main/java/com/example/proyecto/utils/EncryptedPreferencesManager.kt:137-144 | the stored total plus the running session, as `hh:mm:ss` with ASCII digits (read back by `FormatDurationReadsBack`; the locale gap is under Left out) |
| NotificationBanner.NotificationState.constructor | app/src/main/java/com/example/proyecto/ui/components/NotificationBanner.kt:21-22 | starts with an empty message, hidden |
| NotificationBanner.NotificationState.Shown | app/src/main/java/com/example/proyecto/ui/components/NotificationBanner.kt:48 | the banner is on screen iff the flag is up and the message is non-empty |
| NotificationBanner.NotificationState.UpdateNotificationMessage | app/src/main/java/com/example/proyecto/ui/components/NotificationBanner.kt:24-27 | sets the message and raises the flag; the banner shows iff the new message is non-empty |
| NotificationBanner.NotificationState.ClearNotification | app/src/main/java/com/example/proyecto/ui/components/NotificationBanner.kt:29-31 | lowers the flag and keeps the message; the banner is hidden |
| NotificationBanner.ShowThenHide | app/src/main/java/com/example/proyecto/ui/components/NotificationBanner.kt:24-48 | after an update and a clear, the text survives but nothing shows |
| ProductDialogs.DigitsOnly | app/src/main/java/com/example/proyecto/ui/screens/product/ProductScreen.kt:261 | the filtered text is all digits, no longer than the input, and the input itself when that is already all digits |
| ProductDialogs.DigitsOnlySingle | app/src/main/java/com/example/proyecto/ui/screens/product/ProductScreen.kt:261 | one character is kept iff it is a digit |
| ProductDialogs.DigitsOnlyAppend | app/src/main/java/com/example/proyecto/ui/screens/product/ProductScreen.kt:261 | filtering a concatenation concatenates the filtered parts, so the kept digits stay in their input order (with `DigitsOnlySingle` this fixes the result completely) |
| ProductDialogs.DigitsOnlyKeepsEveryDigit | app/src/main/java/com/example/proyecto/ui/screens/product/ProductScreen.kt:261 | each digit occurs in the result exactly as often as in the input |
| ProductDialogs.AddConfirm | app/src/main/java/com/example/proyecto/ui/screens/product/ProductScreen.kt:307-320 | blank name, then blank quantity, then unparseable quantity, then a negative one, each message iff it is the first to apply; otherwise the name and the parsed quantity are submitted |
| ProductDialogs.EditConfirm | app/src/main/java/com/example/proyecto/ui/screens/product/ProductScreen.kt:438-455 | the same order, with "Cantidad inválida" for text `toInt` rejects |
| ProductDialogs.EditDecidesLikeAdd | app/src/main/java/com/example/proyecto/ui/screens/product/ProductScreen.kt:307-320 | the two dialogs decide alike and differ only in the parse-failure message |
| ProductDialogs.SubmissionsAreValid | app/src/main/java/com/example/proyecto/ui/screens/product/ProductScreen.kt:316 | `onConfirm` only ever gets a non-blank name and a quantity in 0..Int.MAX_VALUE |
| ProductDialogs.DigitTextNeverNegative | app/src/main/java/com/example/proyecto/ui/screens/product/ProductScreen.kt:261-317 | with digit-only text the negative-quantity error cannot occur, and the not-a-number error means the digits overflow an `Int` |
| ProductDialogs.UntouchedQuantityRoundTrips | app/src/main/java/com/example/proyecto/ui/screens/product/ProductScreen.kt:340-341 | confirming the edit dialog without touching the quantity resubmits the product's own quantity, or reports it negative |
| ProductDialogs.AddProductDialog.constructor | app/src/main/java/com/example/proyecto/ui/screens/product/ProductScreen.kt:222-226 | all fields start empty, with no error and no image |
| ProductDialogs.AddProductDialog.OnNameChange | app/src/main/java/com/example/proyecto/ui/screens/product/ProductScreen.kt:247-250 | takes the text and clears the error |
| ProductDialogs.AddProductDialog.OnQuantityChange | app/src/main/java/com/example/proyecto/ui/screens/product/ProductScreen.kt:260-263 | keeps only the digits and clears the error; the quantity text stays all digits |
| ProductDialogs.AddProductDialog.OpenCamera | app/src/main/java/com/example/proyecto/ui/screens/product/ProductScreen.kt:289 | opens the camera and changes no field |
| ProductDialogs.AddProductDialog.OnImageCaptured | app/src/main/java/com/example/proyecto/ui/screens/product/ProductScreen.kt:230-233 | stores the image and closes the camera |
| ProductDialogs.AddProductDialog.OnCameraError | app/src/main/java/com/example/proyecto/ui/screens/product/ProductScreen.kt:234-237 | shows the capture error and closes the camera |
| ProductDialogs.AddProductDialog.Confirm | app/src/main/java/com/example/proyecto/ui/screens/product/ProductScreen.kt:307-320 | shows `AddConfirm`'s error, or returns name, quantity and image for `onConfirm`; never newly shows the negative-quantity error |
| ProductDialogs.EditProductDialog.constructor | app/src/main/java/com/example/proyecto/ui/screens/product/ProductScreen.kt:340-344 | starts from the product's name and the decimal text of its quantity |
| ProductDialogs.EditProductDialog.OnNameChange | app/src/main/java/com/example/proyecto/ui/screens/product/ProductScreen.kt:365-368 | takes the text and clears the error |
| ProductDialogs.EditProductDialog.OnQuantityChange | app/src/main/java/com/example/proyecto/ui/screens/product/ProductScreen.kt:378-383 | takes empty or all-digit text and clears the error; other text leaves quantity and error unchanged |
| ProductDialogs.EditProductDialog.OpenCamera | app/src/main/java/com/example/proyecto/ui/screens/product/ProductScreen.kt:419 | opens the camera and changes no field |
| ProductDialogs.EditProductDialog.OnImageCaptured | app/src/main/java/com/example/proyecto/ui/screens/product/ProductScreen.kt:348-351 | stores the image and closes the camera |
| ProductDialogs.EditProductDialog.OnCameraError | app/src/main/java/com/example/proyecto/ui/screens/product/ProductScreen.kt:352-355 | shows the capture error and closes the camera |
| ProductDialogs.EditProductDialog.Confirm | app/src/main/java/com/example/proyecto/ui/screens/product/ProductScreen.kt:438-455 | shows `EditConfirm`'s error, or returns name, quantity and image for `onConfirm` |

## Left out

- Coroutines (`viewModelScope.launch`, `withContext`): each action is a sequential `Begin…`/`Complete…` pair. Interleaved or duplicate submissions are not modelled.
- The network, Retrofit and OkHttp: a call is a value (status code, optional body, reason phrase) or a thrown exception. `isSuccessful` is taken as a 2xx status.
- Multipart bodies, files, image compression and the camera: an image part is an opaque file name, and a captured image is an opaque URI string. `getFileFromUri` in the product view model is not modelled; an exception it throws arrives as the `Threw` outcome.
- The signatures of the product view model, use case and repository disagree: the view model passes an image part, which the use case does not take, and the use case omits the image argument the repository requires. Each file is modelled as written, and the layers are not joined into one pipeline.
- Encryption of the preferences file: the store is an in-memory map.
- `SimpleDateFormat` and `Double.toString`: the formatted date and the rendered coordinates are string parameters.
- `System.currentTimeMillis`: the clock is the parameter `now`.
- The `Long` arithmetic of the usage accumulator is unbounded; 64-bit wrap-around is not modelled.
- The email pattern (`Patterns.EMAIL_ADDRESS`) is the uninterpreted parameter `isValidEmail`.
- GetFormattedTotalUsageTime (Preferences.EncryptedPreferencesManager.GetFormattedTotalUsageTime), and with it FormatDuration and FormatDurationReadsBack: `String.format` uses the device's default locale, which may print non-ASCII digits (Arabic-Indic, for example); the model always prints ASCII digits, so it matches only locales whose zero digit is '0'.
- Text.IsDigit: ASCII digits only. Kotlin's `isDigit`, and therefore `toIntOrNull`, also accept other Unicode decimal digits.
- The `Result.Loading` arm of a use-case reply is passed through as the `Loading` state, as the `when` branches do.
- The banner's five-second auto-hide timer and its animation: only the state and the visibility condition are modelled.
- Camera opening (`showCamera`) is kept as a flag; Compose layout, dialog dismissal, navigation and all screens other than the two product dialogs are not modelled.
- Firebase messaging, topic subscription and permission managers: platform callbacks outside the modelled core.
- The activity lifecycle hooks are modelled only through `PauseThenResumeBanksBackgroundTime`, which replays the pause/resume order of calls on the accumulator.
