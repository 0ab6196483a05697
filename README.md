# AgriVision client logic in Dafny

AgriVision is a Next.js dashboard for farmers. Its pages forward prompts to a hosted language
model; the logic the application itself owns is small, and this project models that logic and
proves what it promises:

- **Translation** (`Language`): the selected language, kept under the `'language'` storage key
  and always a key of the locale table, and `t`, which splits a dotted key, walks the selected
  locale one segment at a time, falls back to the English value of the whole path on the first
  missing segment, and falls back to the key itself when that is falsy too. The method
  `LanguageProvider.T` keeps the source's two loops and is proved equal to the recursive
  specification `Translate`. A lookup that ends on a sub-object returns that object, as the
  source does, so a lookup returns an `Entry` rather than a string.
- **Session** (`Auth`): the mock login and registration (rejected exactly when the email
  contains `"fail"`), and the signed-in user mirrored into storage under `'agrivision_user'`.
- **Profile** (`Profiles`, `ProfilePage`): the profile state (null until loaded, default
  when nothing is stored), its copy under `'userProfile'`, the value and updater forms of
  `setProfile`, the reload on a change notification, and the page's single-field edits.
- **Chat** (`QAChat`): the append-only message log, the blank-input guard and the loading
  flag around the answering call; under sequential use the log alternates user/assistant.
- **Forms and cards** (`Recommendation`, `DiseaseDetection`, `MarketPrices`): the input
  schema, the badge and colour bands, the healthy test, the trend icons, and the
  loading/result/error state around each service call. A failed price refresh keeps the
  prices already shown.

Storage is modelled as one shared `LocalStorage.Store` whose entries are typed values
instead of JSON text. Each asynchronous handler is split at its `await` into a `Begin…` and a
`Complete…` method, so the state while a call is pending is visible; a `Handle…` method runs
both, with the service's outcome given as a parameter or as a function of the request.
Helper modules: `Wrappers` (Option, Result), `Strings` (the JavaScript `split`, `includes`,
`trim` and `toLowerCase` the logic relies on), `Records` (the user and profile records).

Neither the weather card nor the market card caches anything: both call the provider on every
request (src/components/agrivision/market-price-card.tsx:24-40,
src/components/agrivision/weather-card.tsx:24-41), and the model has no cache.

## Model

| member | source | states |
|---|---|---|
| `Strings.Split` | src/hooks/use-language.tsx:35 | `key.split('.')` yields at least one segment, and no segment contains a dot |
| `Strings.JoinSplit` | src/hooks/use-language.tsx:35 | joining the segments with dots gives back the key |
| `Strings.SplitJoin` | src/hooks/use-language.tsx:35 | dot-free segments joined with dots split back into the same segments |
| `Strings.Includes` | src/hooks/use-auth.tsx:17 | `includes` holds exactly when the substring occurs at some index |
| `Strings.TrimEmptyIffBlank` | src/components/agrivision/qa-chat.tsx:38 | `trim()` is empty exactly when every character is JavaScript whitespace |
| `LocalStorage.ReadUser` | src/hooks/use-auth.tsx:49-51 | a stored user is missing exactly when the entry is absent or empty, and parsed exactly when it is a user record |
| `LocalStorage.ReadProfile` | src/hooks/use-profile.ts:32-34 | a stored profile is missing exactly when the entry is absent or empty, and parsed exactly when it is a profile record |
| `LocalStorage.Store.GetItem` | src/hooks/use-auth.tsx:49 | `getItem` returns the stored value for the key, and nothing exactly when the key is absent |
| `LocalStorage.Store.SetItem` | src/hooks/use-auth.tsx:59 | `setItem` stores the value under the key and keeps every other entry |
| `LocalStorage.Store.RemoveItem` | src/hooks/use-auth.tsx:97 | `removeItem` drops the key, and only that key |
| `Language.WalkUndefined` | src/hooks/use-language.tsx:38 | once a step is undefined, `?.[k]` keeps it undefined to the end of the path |
| `Language.WalkAppend` | src/hooks/use-language.tsx:36-38 | walking a path is walking a prefix and then the rest |
| `Language.WalkFailsIff` | src/hooks/use-language.tsx:37-39 | the walk is undefined exactly when the start is undefined or some segment is missing where it is looked up |
| `Language.Translate` | src/hooks/use-language.tsx:34-49 | `t` returns the key itself or a truthy value; any value it returns was found along the whole path in the selected locale, or in English when the selected walk is undefined |
| `Language.TranslateResolved` | src/hooks/use-language.tsx:35-48 | when every segment resolves in the selected language to a truthy value, `t` returns it |
| `Language.TranslateMissingSegment` | src/hooks/use-language.tsx:39-45 | when any segment is missing in the selected language, `t` returns the truthy English value of the whole path, else the key |
| `Language.TranslateEmptyValue` | src/hooks/use-language.tsx:48 | a value that resolves to the empty string yields the key, not the English text |
| `Language.TranslateNeverEmpty` | src/hooks/use-language.tsx:45-48 | for a non-empty key `t` never returns the empty string |
| `Language.TranslateEnglish` | src/hooks/use-language.tsx:39-45 | with English selected, `t` returns the English value or the key |
| `Language.AcceptedAsWritten` | src/hooks/use-language.tsx:28 | the guard as written accepts every language of the table, and beyond those only names every object inherits |
| `Language.SetLanguageAsWritten` | src/hooks/use-language.tsx:27-32 | as written, `setLanguage` selects the given code or keeps the current one; a known code is always selected, and a selected code outside the table is an inherited name |
| `Language.InheritedNameSelected` | src/hooks/use-language.tsx:28 | the guard as written accepts `"toString"`, which selects a language that is not in the table |
| `Language.LanguageProvider.constructor` | src/hooks/use-language.tsx:18 | the language starts as `'en'`, a key of the table |
| `Language.LanguageProvider.Restore` | src/hooks/use-language.tsx:20-25 | a saved non-empty code that is a key of the table is adopted; otherwise the language is kept; it stays a key |
| `Language.LanguageProvider.SetLanguage` | src/hooks/use-language.tsx:27-32 | a known code becomes the language and is stored under `'language'`; an unknown code changes neither; the language stays a key |
| `Language.LanguageProvider.T` | src/hooks/use-language.tsx:34-49 | the two loops of `t`, with the early return on the first undefined step, compute `Translate` for the selected language |
| `Auth.FakeApiLogin` | src/hooks/use-auth.tsx:14-21 | fails with "Invalid credentials" exactly when `"fail"` occurs in the email; otherwise yields "Test User" with that email |
| `Auth.FakeApiRegister` | src/hooks/use-auth.tsx:23-30 | fails with "Registration failed" exactly when `"fail"` occurs in the email; otherwise yields the submitted name and email |
| `Auth.SameEmailSameVerdict` | src/hooks/use-auth.tsx:17-26 | login and registration with the same email succeed or fail together |
| `Auth.AuthProvider.constructor` | src/hooks/use-auth.tsx:45 | the user starts null |
| `Auth.AuthProvider.Restore` | src/hooks/use-auth.tsx:47-53 | a stored user record is adopted as it is; otherwise the user is unchanged |
| `Auth.AuthProvider.Login` | src/hooks/use-auth.tsx:55-69 | on success the user and the stored `'agrivision_user'` entry are the same record; on failure both are unchanged |
| `Auth.AuthProvider.Register` | src/hooks/use-auth.tsx:71-85 | the same for registration |
| `Auth.AuthProvider.Logout` | src/hooks/use-auth.tsx:95-99 | the user becomes null and the stored user entry is removed, nothing else in storage changes |
| `Profiles.ProfileHook.constructor` | src/hooks/use-profile.ts:27 | the profile is null until loaded |
| `Profiles.Loaded` | src/hooks/use-profile.ts:29-43 | the profile the mount effect settles on: the stored profile when one is readable, the default otherwise |
| `Profiles.ProfileHook.Load` | src/hooks/use-profile.ts:29-43 | nothing stored: the default becomes the profile and is stored; a stored profile is adopted unchanged; unreadable text yields the default without rewriting storage |
| `Profiles.ProfileHook.SetProfile` | src/hooks/use-profile.ts:60-68 | the state and the stored `'userProfile'` entry both become the given value |
| `Profiles.Current` | src/hooks/use-profile.ts:62 | an updater is applied to the loaded profile, or to the default when none is loaded |
| `Profiles.ProfileHook.UpdateProfile` | src/hooks/use-profile.ts:60-68 | the updater is applied to the current profile, or to the default when none is loaded, and the result is both state and stored entry |
| `Profiles.ProfileHook.OnProfileChange` | src/hooks/use-profile.ts:46-51 | reloads from storage only when an entry exists; otherwise the profile is unchanged |
| `Profiles.SetThenNotify` | src/hooks/use-profile.ts:46-66 | the change notification a setter dispatches reloads exactly the value the setter stored |
| `ProfilePage.FieldOfId` | src/app/profile/page.tsx:19-20 | an input id names a profile field exactly when it is that field's property name |
| `ProfilePage.WithField` | src/app/profile/page.tsx:20 | `{ ...p, [id]: value }` sets the named field to the value and keeps every other field |
| `ProfilePage.ApplyInput` | src/app/profile/page.tsx:20 | an input whose id names a field sets that field to the typed value and keeps every other field; an id naming no field changes nothing |
| `ProfilePage.ApplyPicture` | src/app/profile/page.tsx:36 | a chosen picture sets the avatar to its data URL and keeps every other field |
| `ProfilePage.InputEditsOneField` | src/app/profile/page.tsx:18-20 | each text input id (`fullName`, `email`, `farmName`, `farmLocation`) names a field other than the avatar, and an edit replaces exactly that field |
| `ProfilePage.AvatarOnlyFromPicture` | src/app/profile/page.tsx:31-44 | no text input changes the avatar; a chosen picture sets `avatarUrl` to its data URL and nothing else |
| `ProfilePage.Render` | src/app/profile/page.tsx:50-111 | nothing is rendered without a profile; otherwise the avatar, the name's first character and the four input values |
| `ProfilePage.ProfilePage.HandleInputChange` | src/app/profile/page.tsx:18-21 | the edited profile becomes state and stored entry |
| `ProfilePage.ProfilePage.HandlePictureChange` | src/app/profile/page.tsx:31-44 | choosing no file changes nothing; a picture updates the avatar through the hook |
| `ProfilePage.ProfilePage.HandleSaveChanges` | src/app/profile/page.tsx:23-29 | saving changes neither the profile nor storage |
| `QAChat.Reply` | src/components/agrivision/qa-chat.tsx:46-52 | the assistant message is the answer on success and the fixed apology on failure |
| `QAChat.Accepts` | src/components/agrivision/qa-chat.tsx:38 | a question is accepted exactly when some character of it is not whitespace, so an empty or whitespace-only one is rejected |
| `QAChat.SendDisabled` | src/components/agrivision/qa-chat.tsx:119 | the send button is enabled exactly when nothing is loading and the input has a non-whitespace character |
| `QAChat.ExchangeKeepsAlternation` | src/components/agrivision/qa-chat.tsx:40-52 | a question and its reply appended to an idle alternating log keep it alternating and of even length |
| `QAChat.QAChat.constructor` | src/components/agrivision/qa-chat.tsx:22-24 | empty log, empty input, not loading |
| `QAChat.QAChat.Type` | src/components/agrivision/qa-chat.tsx:114-117 | typing replaces the input and nothing else |
| `QAChat.QAChat.BeginSubmit` | src/components/agrivision/qa-chat.tsx:36-43 | blank input: nothing changes; otherwise the input as typed is appended as a user message and returned as the query, the field is cleared, loading starts |
| `QAChat.QAChat.CompleteSubmit` | src/components/agrivision/qa-chat.tsx:46-55 | exactly one assistant message is appended and loading ends, whatever the outcome |
| `QAChat.QAChat.HandleSubmit` | src/components/agrivision/qa-chat.tsx:36-56 | an accepted question adds exactly the user message and its reply, the query is the input as typed, and the log stays alternating |
| `Recommendation.Validate` | src/components/agrivision/recommendation-form.tsx:23-28 | valid exactly when 0 ≤ pH ≤ 14 and the three strings have length at least one |
| `Recommendation.DefaultValuesValid` | src/components/agrivision/recommendation-form.tsx:60-65 | the default values satisfy the schema |
| `Recommendation.BoundaryValuesValid` | src/components/agrivision/recommendation-form.tsx:23-28 | whitespace-only strings pass, both pH bounds are inclusive, 14.1 is too high |
| `Recommendation.SustainabilityBadge` | src/components/agrivision/recommendation-form.tsx:82-86 | High exactly above 75, Medium exactly in (40, 75], Low exactly at or below 40 |
| `Recommendation.BadgeMonotone` | src/components/agrivision/recommendation-form.tsx:82-86 | a higher score never earns a lower badge |
| `Recommendation.BadgeBoundaries` | src/components/agrivision/recommendation-form.tsx:83-84 | 75 is Medium and 40 is Low |
| `Recommendation.RecommendationForm.constructor` | src/components/agrivision/recommendation-form.tsx:55-56 | not loading, no result |
| `Recommendation.RecommendationForm.BeginSubmit` | src/components/agrivision/recommendation-form.tsx:69-70 | loading starts and the previous result is cleared |
| `Recommendation.RecommendationForm.CompleteSubmit` | src/components/agrivision/recommendation-form.tsx:71-79 | success stores the response, failure leaves the result; loading ends |
| `Recommendation.RecommendationForm.OnSubmit` | src/components/agrivision/recommendation-form.tsx:68-80 | afterwards the result is the response on success and null on failure, and loading is false |
| `Recommendation.RecommendationForm.HandleSubmit` | src/components/agrivision/recommendation-form.tsx:97 | invalid values are reported and change nothing; valid values run `onSubmit` |
| `DiseaseDetection.ConfidenceColor` | src/components/agrivision/disease-detection-form.tsx:55-59 | green exactly above 0.8, yellow exactly in (0.5, 0.8], red exactly at or below 0.5 |
| `DiseaseDetection.IsHealthy` | src/components/agrivision/disease-detection-form.tsx:121 | a healthy name has as many characters as "healthy", and "healthy" itself is healthy |
| `DiseaseDetection.HealthyIff` | src/components/agrivision/disease-detection-form.tsx:121-122 | the healthy test holds exactly for the seven letters of "healthy" in any mix of cases |
| `DiseaseDetection.TreatmentAdvice` | src/components/agrivision/disease-detection-form.tsx:142 | the advice shown is never empty: the service's advice, or "No treatment necessary." |
| `DiseaseDetection.AnalyzeDisabled` | src/components/agrivision/disease-detection-form.tsx:91 | the Analyze button is enabled exactly when a file is chosen and nothing is loading |
| `DiseaseDetection.HasPreview` | src/components/agrivision/disease-detection-form.tsx:38 | a preview is usable exactly when it is present and not the empty string |
| `DiseaseDetection.DiseaseDetectionForm.constructor` | src/components/agrivision/disease-detection-form.tsx:16-20 | no file, no preview, not loading, no result, no error |
| `DiseaseDetection.DiseaseDetectionForm.HandleFileChange` | src/components/agrivision/disease-detection-form.tsx:23-35 | a chosen file is kept and clears result and error, enabling Analyze when idle; choosing nothing changes nothing |
| `DiseaseDetection.DiseaseDetectionForm.PreviewLoaded` | src/components/agrivision/disease-detection-form.tsx:29-31 | the reader's data URL becomes the preview and nothing else changes |
| `DiseaseDetection.DiseaseDetectionForm.BeginAnalysis` | src/components/agrivision/disease-detection-form.tsx:37-42 | without a preview nothing happens; otherwise loading starts (Analyze disabled), result and error are cleared, the preview is sent |
| `DiseaseDetection.DiseaseDetectionForm.CompleteAnalysis` | src/components/agrivision/disease-detection-form.tsx:44-52 | the diagnosis on success, the fixed message on failure; loading ends |
| `DiseaseDetection.DiseaseDetectionForm.HandleSubmit` | src/components/agrivision/disease-detection-form.tsx:37-53 | after a submission exactly one of result and error is set and loading is false |
| `MarketPrices.TrendIconBijective` | src/components/agrivision/market-price-card.tsx:9-17 | up, down and stable map to ArrowUp, ArrowDown and Minus, one icon per trend |
| `MarketPrices.TrendIcon` | src/components/agrivision/market-price-card.tsx:9-17 | up is drawn as ArrowUp, down as ArrowDown and stable as Minus, and each icon only for its own trend |
| `MarketPrices.SpinnerVisible` | src/components/agrivision/market-price-card.tsx:59 | the spinner shows while loading with no prices, never over prices already shown, and only while the button is disabled |
| `MarketPrices.RefreshDisabled` | src/components/agrivision/market-price-card.tsx:50 | the refresh button is disabled exactly while a fetch is pending |
| `MarketPrices.MarketPriceCard.constructor` | src/components/agrivision/market-price-card.tsx:20-22 | no prices, not loading, no error |
| `MarketPrices.MarketPriceCard.BeginFetch` | src/components/agrivision/market-price-card.tsx:24-26 | loading starts, the error is cleared, the prices shown stay; the button is disabled and the spinner shows only with no prices |
| `MarketPrices.MarketPriceCard.CompleteFetch` | src/components/agrivision/market-price-card.tsx:27-35 | success replaces the prices; failure keeps them and sets the fixed message; loading ends |
| `MarketPrices.MarketPriceCard.HandleFetchPrices` | src/components/agrivision/market-price-card.tsx:24-40 | a whole refresh: new prices and no error on success, old prices and the message on failure, no spinner and an enabled button afterwards |

## Findings

| source | as written | input that shows it | evidently intended | confidence | as-written member | corrected member |
|---|---|---|---|---|---|---|
| src/hooks/use-language.tsx:28 | `if (translations[lang])` is also truthy for names every object inherits, such as `toString` (the same guard is at line 22) | `setLanguage("toString")`, or `"toString"` saved under `'language'` | accept only the table's own language codes, so the language is always a key of the table | high; not executed | `Language.InheritedNameSelected` | `Language.LanguageProvider.SetLanguage` |

The model's provider uses own-key membership (`IsKnownLanguage`), and `Restore` and
`SetLanguage` are proved to keep the language a key of the table.

## Left out

- The model-backed services (crop recommendation, disease detection, question answering, market prices, weather): each is one success-or-failure outcome; their output shapes appear only as datatypes.
- The weather card: it depends on the browser's geolocation and permission interfaces.
- Timing and plumbing: the mock calls' one-second delays, the query library's mutation state, toasts, console logging, and the dispatch and subscription of the profile-change event (the reload itself is `OnProfileChange`).
- Concurrent submissions: each handler is a `Begin…`/`Complete…` pair run in sequence; interleavings of two pending calls are not modelled.
- QAChat.QAChat.BeginSubmit: requires that no answer is pending, because the source disables the input and the send button while loading.
- Language.LanguageProvider.T: a segment counts as found only when it is an own key of the object reached so far. Indexing a string leaf (`"abc"["0"]`, `"abc"["length"]`) is a missing segment, where JavaScript would return a character or a number. A name in `InheritedNames` (`toString`, `constructor`, …) that is not an own key is a missing segment too, where JavaScript returns the inherited member, a truthy function that `t` would then return. The same holds for `Language.Translate`.
- The locale files themselves are not part of this model: the table is a constructor parameter that must contain English.
- Auth.AuthProvider.Restore: stored text that is not a user record is reported as `Unparseable` and leaves the user as it was; the source's `JSON.parse` would throw from the effect, or adopt whatever value the text encodes.
- Profiles.ProfileHook.OnProfileChange: the same for the listener, whose `JSON.parse` is also unguarded.
- Profiles.ProfileHook.Load: storage that throws (unavailable, or full on `setItem`) is not modelled; the source's `catch` would then settle on the default profile without writing it, whereas the model's nothing-stored branch always writes the default.
- Profiles.ProfileHook.Load: stored text of a different JSON shape is treated like unreadable text (default profile, storage not rewritten); the source would adopt the parsed value whatever its shape.
- ProfilePage.ProfilePage.HandleInputChange: an input id that names no profile field keeps the five fields as they are; the source would add a stray property to the stored object.
- DiseaseDetection.HealthyIff: lower-casing is modelled for ASCII letters only; no other character lower-cases to a letter of "healthy", so the comparison's outcome is the same.
- Numbers are exact reals: no NaN or infinities (which the schema's number check would reject), no floating-point rounding, and no `toFixed`/`toLocaleString` formatting.
- String lengths count characters, not UTF-16 code units; the schema's "at least one" check gives the same answer either way.
- File reading: the data URL a reader produces is an opaque string parameter.
- Page markup and everything else that only renders or forwards: layout, sidebar, header, settings and help pages, the sign-in form (which only forwards its fields; the password is accepted and ignored), and the page wrappers.
