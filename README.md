# Session and token store of a Nuxt front-end, modelled in Dafny

This project models the authentication layer in `plugins/cognito.ts`. That layer has two parts.

- **`UniversalStorage`** is the token store the identity-provider library writes to. It is a string table. In the browser it also mirrors the provider's token keys into the cookie jar. Those keys are the ones whose last `.`-separated segment is `LastAuthUser`, `accessToken`, `refreshToken` or `idToken`. The mirroring lets a server-rendered request see a session the browser established.
- **`CognitoAuth`** is the session manager. It is a signed-in / signed-out machine over five fields: the bound user handle, the id token, the storage credential, and server-side copies of the token and credential. It is signed in (`isLoggedIn`) when either copy of the token is a non-empty string.

Files:

- `wrappers.dfy`: `Option`, standing for JavaScript's `null`.
- `segments.dfy`: `split`, plus the first (`shift()`) and last (`pop()`) piece of a split on a one-character separator. `Split` is a reference definition, and each piece function is proved equal to the matching end of it. `Split` is also proved to lose nothing: joining its pieces gives back the input.
- `storage.dfy`: the `UniversalStorage` class, over two `map<string, string>` fields and an `isClient` flag. It has:
  - `ShouldMirror`, the allow-list test.
  - `Lookup`, the `getItem` read.
  - `Hydrated`, the table right after construction.
  - An object invariant: every cookie key is a table key. In the browser, a mirrored key also holds the same value in both tables.
- `auth.dfy`: pure transition functions over a `Session` value (`Succeeded`, `Refreshed`, `WithUser`, `Step`, `Run`), with lemmas about them. `Step` and `Run` keep the two copies of the token and of the credential in step. It also has the `CognitoAuth` class. Each of its methods is proved to leave `Snapshot()` equal to the matching transition applied to the old snapshot, and to keep the class invariant `Valid()` (the same agreement between the copies). The route middleware is the method `RouteGuard`.

Each identity-provider call is replaced by its reply, passed in as a parameter:

- `SessionReply` answers `getSession` and `authenticateUser`. It is `Granted(idToken)`, `Refused(error)` or `Unanswered`. `Unanswered` covers a callback that reaches neither handler the manager listens on.
- `CallReply` answers the account operations.
- `getCurrentUser` is also a parameter.

The storage credential is the opaque value it is built from: the identity pool id and the logins map.

The credential's logins map is modelled as the code computes it. The map is read (`:104`) before the token fields are overwritten (`:107`, `:109`), so a new credential carries the token it replaces. On a first sign-in that token is `null`. `PriorLogin` and `Succeeded` state this, and `CredentialUsesPreviousToken` shows it on a sign-in followed by a refresh.

Three behaviours of the code worth knowing:

- `getItem` returns `null` for a stored empty string.
- `fetchUser` with no current user resolves without clearing stale tokens.
- The credential uses the previous token.

## Model

| member | source | states |
|---|---|---|
| `Segments.Split` | plugins/cognito.ts:251 | `key.split(sep)`: at least one piece, and no piece contains the separator |
| `Segments.JoinSplit` | plugins/cognito.ts:251 | joining the pieces of a split with the separator gives back the original string |
| `Segments.FirstSegment` | plugins/cognito.ts:43 | `split(sep).shift()`: a separator-free prefix that is either the whole string or is followed by the separator |
| `Segments.LastSegment` | plugins/cognito.ts:251 | `split(sep).pop()`: a separator-free suffix that is either the whole string or is preceded by the separator |
| `Segments.SplitSnoc` | plugins/cognito.ts:251 | appending a character either starts a new empty piece (it is the separator) or extends the last piece |
| `Segments.FirstSegmentIsFirstPiece` | plugins/cognito.ts:43 | `FirstSegment` is exactly the first element of `Split` |
| `Segments.LastSegmentIsLastPiece` | plugins/cognito.ts:251 | `LastSegment` is exactly the last element of `Split` |
| `Segments.LastSegmentAfterSeparator` | plugins/cognito.ts:251 | in `prefix + sep + tail` with no separator in `tail`, the last segment is `tail`, whatever `prefix` holds |
| `Segments.FirstSegmentBeforeSeparator` | plugins/cognito.ts:43 | in `head + sep + rest` with no separator in `head`, the first segment is `head`, whatever `rest` holds |
| `Segments.LastSegmentIsTheSegmentEnding` | plugins/cognito.ts:251 | for a separator-free `t`, the last segment is `t` exactly when the string is `t` or ends with the separator followed by `t` |
| `Segments.WithoutSeparator` | plugins/cognito.ts:43 | a string with no separator is its own first and last segment |
| `Storage.ShouldMirror` | plugins/cognito.ts:251-257 | the allow-list test on the key's last `.`-segment; a mirrored key is non-empty and does not end in `.` (no listed type is empty) |
| `Storage.ShouldMirrorIsSuffixTest` | plugins/cognito.ts:251-257 | a key is mirrored exactly when it is one of the four listed types or ends with `.` followed by one of them |
| `Storage.Lookup` | plugins/cognito.ts:243-245 | `getItem` yields a value exactly when the key is present with a non-empty value, and the value is the stored one; otherwise it yields `null` |
| `Storage.Hydrated` | plugins/cognito.ts:237-241 | the constructed table holds the union of the keys; every cookie entry wins over a table entry under the same key; other entries keep their values |
| `Storage.ShouldMirrorByTokenType` | plugins/cognito.ts:250-258 | a key `prefix.tokenType` is mirrored exactly when `tokenType` is one of the four allow-listed types, whatever the prefix |
| `Storage.ShouldMirrorUndottedKey` | plugins/cognito.ts:251-257 | a key without `.` is tested whole against the allow-list |
| `Storage.ShouldMirrorProviderKeys` | plugins/cognito.ts:250-265 | a provider id-token key is mirrored; a provider `userData` key is not |
| `Storage.LookupAfterWrite` | plugins/cognito.ts:243-248 | after a write, the key reads back as the value, or as `null` if the value is empty; every other key reads as before |
| `Storage.LookupAfterRemove` | plugins/cognito.ts:269-272 | after a removal the key reads as `null`; every other key reads as before |
| `Storage.UniversalStorage.constructor` | plugins/cognito.ts:237-241 | the table is the backing table hydrated with the cookie jar; the backing table is the browser's local storage on the client and empty on the server; the jar is unchanged; the invariant holds |
| `Storage.UniversalStorage.GetItem` | plugins/cognito.ts:243-245 | returns `Lookup` of the current table |
| `Storage.UniversalStorage.SetItem` | plugins/cognito.ts:247-267 | the table gains `key := value`; the cookie jar gains the same entry only on the client and only for an allow-listed key, and is otherwise untouched; the invariant is kept |
| `Storage.UniversalStorage.RemoveItem` | plugins/cognito.ts:269-272 | the key leaves both the table and the cookie jar, without an allow-list check; nothing else changes |
| `Storage.UniversalStorage.Clear` | plugins/cognito.ts:274-278 | the table ends empty; every key the table held is gone from the cookie jar, so under the invariant (every cookie key is a table key) the jar ends empty too |
| `Auth.Region` | plugins/cognito.ts:43 | `userPoolId.split('_').shift()`: an underscore-free prefix of the pool id that is the whole id or is followed by `_` |
| `Auth.ProviderKey` | plugins/cognito.ts:44 | the key is `cognito-idp.` and the region, followed by `.amazonaws.com/` and the full pool id |
| `Auth.ProviderKeyOfPoolId` | plugins/cognito.ts:42-44 | for a pool id `region_suffix`, the provider key is `cognito-idp.<region>.amazonaws.com/<pool id>` |
| `Auth.ProviderKeyOfBareId` | plugins/cognito.ts:43-44 | a pool id without `_` is used whole as the region |
| `Auth.LoggedIn` | plugins/cognito.ts:58-60 | with no token the manager is logged out; when the two copies agree, it is logged in exactly when the token is non-empty |
| `Auth.PriorLogin` | plugins/cognito.ts:104 | the logins value is read before the overwrite: `null` from the signed-out state, and the current token when the copies agree |
| `Auth.WithUser` | plugins/cognito.ts:83-88 | binds a fresh handle for the username and leaves every other field as it was |
| `Auth.Succeeded` | plugins/cognito.ts:98-111 | both token copies become the new token; both credential copies become one credential built from the pool and the token held before the call; logged in exactly when the token is non-empty; the session is stored on the user |
| `Auth.Refreshed` | plugins/cognito.ts:62-81 | with no bound user: resolves `null` and changes nothing; on error: clears everything and rejects; on a session: the state is `Succeeded` with its token, it resolves with it, and is logged in exactly when the token is non-empty; with no answer: stays pending and changes nothing |
| `Auth.Forwarded` | plugins/cognito.ts:158-164 | an account operation settles with the provider's result or error, unchanged, and never stays pending |
| `Auth.Step` | plugins/cognito.ts:90-228 | every public operation keeps the token copies equal, keeps the credential copies equal, and keeps a token present exactly when a credential is |
| `Auth.Run` | plugins/cognito.ts:58-60 | along any sequence of operations from a consistent state, the state stays consistent, and a logged-in state always holds a credential |
| `Auth.SignOutClears` | plugins/cognito.ts:169-174 | sign-out from any state clears all five fields, so the manager is logged out with no credential |
| `Auth.FailureClears` | plugins/cognito.ts:113-116 | a refused sign-in or refresh clears every field, whatever was held before |
| `Auth.SignInSucceeds` | plugins/cognito.ts:124-144 | a granted sign-in logs in exactly when its token is non-empty; both token copies are that token; a credential is present in both copies; the user is bound |
| `Auth.CredentialUsesPreviousToken` | plugins/cognito.ts:98-111 | a first sign-in builds its credential from `null`; a following refresh builds it from the token it replaces |
| `Auth.FetchWithoutUserKeepsTokens` | plugins/cognito.ts:118-122 | fetching with no current user only unbinds the user; tokens, credentials and the logged-in status are kept |
| `Auth.AccountOperationsKeepSession` | plugins/cognito.ts:146-228 | sign-up and the four account operations never change the tokens, the credentials or the logged-in status |
| `Auth.CognitoAuth.IsLoggedIn` | plugins/cognito.ts:58-60 | `isLoggedIn` on the current fields; under the invariant, true exactly when the id token is non-empty |
| `Auth.CognitoAuth.constructor` | plugins/cognito.ts:42-56 | the provider key is derived from the pool id; all session fields are null; not logged in |
| `Auth.CognitoAuth.Refresh` | plugins/cognito.ts:62-81 | new state and settlement are those of `Refreshed` |
| `Auth.CognitoAuth.SetUser` | plugins/cognito.ts:83-88 | new state is `WithUser` of the old one |
| `Auth.CognitoAuth.ClearUser` | plugins/cognito.ts:90-96 | all five fields are null, whatever came before; not logged in |
| `Auth.CognitoAuth.OnSuccess` | plugins/cognito.ts:98-111 | new state is `Succeeded` of the old one; logged in exactly when the token is non-empty |
| `Auth.CognitoAuth.OnFailure` | plugins/cognito.ts:113-116 | all five fields are null |
| `Auth.CognitoAuth.FetchUser` | plugins/cognito.ts:118-122 | binds the current user and then refreshes; rejects exactly when the refresh rejects |
| `Auth.CognitoAuth.SignIn` | plugins/cognito.ts:124-144 | binds the user, then follows the reply: success publishes the session and resolves with it; failure clears and rejects with the error |
| `Auth.CognitoAuth.SignUp` | plugins/cognito.ts:146-167 | changes no field and forwards the provider's result or error |
| `Auth.CognitoAuth.SignOut` | plugins/cognito.ts:169-174 | all fields are cleared whether or not a user was bound; not logged in; no credential |
| `Auth.CognitoAuth.ConfirmRegistration` | plugins/cognito.ts:176-191 | rebinds the user, keeps tokens and credentials, and forwards the provider's reply |
| `Auth.CognitoAuth.ResetPassword` | plugins/cognito.ts:193-201 | rebinds the user, keeps tokens and credentials, and forwards the provider's reply |
| `Auth.CognitoAuth.ConfirmPassword` | plugins/cognito.ts:203-215 | rebinds the user, keeps tokens and credentials, and forwards the provider's reply |
| `Auth.CognitoAuth.ResendConfirmationCode` | plugins/cognito.ts:217-228 | rebinds the user, keeps tokens and credentials, and forwards the provider's reply |
| `Auth.RouteGuard` | middleware/index.global.ts:1-6 | a logged-in manager is left untouched and the guard resolves; otherwise the state is that of `fetchUser`, and the guard rejects or stays pending exactly when `fetchUser` does |

## Left out

- Identity-provider calls are not modelled. This covers `authenticateUser`, `getSession`, `signUp`, `confirmRegistration`, `forgotPassword`, `confirmPassword`, `resendConfirmationCode`, `getCurrentUser` and the user's own `signOut`. They are foreign code with cryptography behind them, so each becomes a reply parameter.
- The provider library's own reads and writes of the token store are not modelled. An example is the cached tokens cleared by the user's `signOut`. So the two classes are not connected in the model.
- `fromCognitoIdentity` credential resolution is not modelled. The credential is the value it is built from.
- Promises, callbacks and their timing are not modelled. Each operation runs to completion, and its promise is modelled only by how it settles (`Settled`).
- Vue `ref` reactivity is not modelled. The reactive fields are plain fields.
- `console.error` logging in `#onFailure` is not modelled.
- Cookie attributes (`path`, `sameSite`, and `secure` from the host name) are not modelled.
- Parsing of the request's cookie header is not modelled. The cookie jar is given as a map.
- The durability of the browser's local storage is not modelled. It is the constructor's `localStorage` parameter.
- Storage.UniversalStorage.Clear: the model assumes this store is the only writer of the cookie jar. A cookie added after construction by other page code or a server response is not a table key, so `clear()` leaves it behind, and the promise that the jar ends empty does not hold then.
- Storage.UniversalStorage.SetItem: the model assumes the browser accepts every cookie it is given. A `secure` cookie on a plain-http origin other than `localhost`, or an oversized cookie, is dropped, and then the mirrored entry is missing from the jar.
- Storage.Lookup: models the table as a plain dictionary. A plain object also answers for inherited property names such as `constructor`, and this model does not capture that.
- `confirmRegistration` always sends an empty confirmation code to the provider. The model does not see that argument, only the provider's reply.
- The password, email and confirmation code arguments go only to the provider, so the model does not use them.
- `plugins/s3.client.ts` is not part of this model: it is remote object-store I/O.
- `composables/api.ts` is not part of this model: it is request plumbing around `isLoggedIn`.
- The build and styling configuration files are not part of this model.
