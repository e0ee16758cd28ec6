# nodeca.users core, modelled in Dafny

This project models the request handlers and client logic at the core of the
nodeca.users package, the user, album, dialog and usergroup component of the
Nodeca forum engine:

- the uploads-configuration normaliser and its memo (`server/_lib/resize_parse.js`);
- the client-side uploader: extension and size checks, the resize decision and
  target size, abort and close confirmation, the batch loop and the final
  newest-first order (`client/users/uploader/uploader.js`);
- dialog message removal (`server/users/dialog/message/destroy.js`);
- infraction info for dialog messages (`internal/users/infraction/info.js`);
- plain login with its rate-limit and captcha guards (`server/users/auth/login/plain_exec.js`);
- applying a password reset (`server/users/auth/reset_password/change_exec.js`);
- the usergroup admin pages' setting group-by (`server/admin/users/usergroups/add.js`,
  `server/admin/usergroups/show.js`);
- the album page (`server/users/album/album.js`).

There is one module per source file. `Wrappers` holds `Option` and `Result`.
`Json` holds JavaScript values with their truthiness, `||` and property access.
`SettingsGrouping` holds the group-by that both usergroup pages use.

Callback chains run in sequence in the model. A hook that fails stops the chain,
and an `after` hook runs only on success. Database collections are maps from id
to record, or sequences where the code takes the first match (`findOne`).
Foreign services (validators, MIME lookup, bcrypt, captcha, rate limiter, router,
clock) are function parameters or inputs. State the code changes in place is a
class with `modifies` clauses. Each method on such a class is proved against a
specification function, and the properties are lemmas about those functions.

## Model

| member | source | states |
|---|---|---|
| ResizeParse.Parse | server/_lib/resize_parse.js:81-166 | the normaliser returns or throws exactly what `ParseSpec` gives: defaults, validation, and the `types` rebuilt from the allowed extensions |
| ResizeParse.CollectErrors | server/_lib/resize_parse.js:88-107 | the errors are the common validator's, then the type validator's once per entry of `types`, then the preview validator's once per entry of `resize`, each run on the whole config |
| ResizeParse.ErrorText | server/_lib/resize_parse.js:110-115 | the thrown message is every error formatted as `'field' message 'value'`, joined by `, ` |
| ResizeParse.FillTypes | server/_lib/resize_parse.js:118-161 | the new `types` map holds one record per listed extension, each the `TypeOptions` of that extension |
| ResizeParse.FillType | server/_lib/resize_parse.js:122-158 | one extension's record: global `max_size`, previews for image MIME types, then the type's own non-`resize` fields |
| ResizeParse.FillPreviews | server/_lib/resize_parse.js:133-154 | one record per preview key of `config.resize`, each the merged preview options |
| ResizeParse.NormaliseKeeps | server/_lib/resize_parse.js:82-85 | the copy has every input field unchanged except `types` and `resize`, `resize` defaults to `{}`, and the allowed extensions are the input's |
| ResizeParse.ThrowsIffInvalid | server/_lib/resize_parse.js:91-116 | it throws iff the common validator fails, or the type validator fails and `types` has an entry, or the preview validator fails and `resize` has one; the message lists all errors |
| ResizeParse.CopyDefaultsAndTypes | server/_lib/resize_parse.js:82-85 | the result keeps every other input field, has `resize` defaulted to `{}` and `types` replaced by the per-extension records |
| ResizeParse.TypesAreExtensions | server/_lib/resize_parse.js:121-164 | the keys of the output `types` are exactly the `extentions` entries, each mapped to its own record |
| ResizeParse.MaxSizeOverride | server/_lib/resize_parse.js:127-129 | a type's `max_size` is the global one unless the type's own record sets it |
| ResizeParse.ResizeOnlyForImages | server/_lib/resize_parse.js:132-158 | `resize` is present iff the MIME type contains `image/`, and then has exactly the keys of `config.resize`; the type's other fields override the globals |
| ResizeParse.PreviewPrecedence | server/_lib/resize_parse.js:137-140 | a preview field comes from the type's preview options when set there, otherwise from the global preview |
| ResizeParse.JpegQualityFallback | server/_lib/resize_parse.js:143-147 | `jpeg_quality` is filled only for a jpeg preview, or an untyped preview of a jpeg file: merged value, then type value, then global value |
| ResizeParse.GifAnimationFallback | server/_lib/resize_parse.js:150-153 | `gif_animation` is filled only for a gif preview, or an untyped preview of a gif file, from the type's preview value or else the global one |
| ResizeParse.JpegAndGifExclusive | server/_lib/resize_parse.js:143-153 | no preview is treated as both jpeg and gif |
| ResizeParse.Memo.Call | server/_lib/resize_parse.js:81-169 | a cached result is returned for an input with the same JSON text; otherwise a fresh parse, cached only when it does not throw; every cache entry is the parse of its input |
| Uploader.CheckFile | client/users/uploader/uploader.js:43-52 | a file is refused with `err_invalid_ext` exactly when its name does not match the extension pattern |
| Uploader.CheckFileAccepts | client/users/uploader/uploader.js:44-47 | a name matches iff it is a prefix, one non-line-terminator character, and an allowed extension in any letter case |
| Uploader.DotMatchesAnyCharacter | client/users/uploader/uploader.js:44 | the unescaped dot accepts `imagepng` for `png`; `photo.PNG` passes and `png` alone does not |
| Uploader.LastSegment | client/users/uploader/uploader.js:175 | the extension is what follows the last dot (the whole name without a dot) and holds no dot |
| Uploader.SizeLimitSelection | client/users/uploader/uploader.js:174-189 | the limit is the type's truthy `max_size`, else the global one; a file fails only when strictly larger |
| Uploader.KiloBytesRounding | client/users/uploader/uploader.js:183 | for every byte count n the kilobytes k shown satisfy `1024k - 512 <= n < 1024k + 512`, which is `Math.round(n / 1024)` with halves rounding up |
| Uploader.ResizeSkipConditions | client/users/uploader/uploader.js:63-74 | a file is resized iff its extension (case-sensitive) is bmp/jpg/jpeg/png, its type has an `orig` preview, and it is not below `skip_size` |
| Uploader.PreviewDimensions | client/users/uploader/uploader.js:88-110 | for numeric or absent options, the dimension read is the number or 0, and nonzero exactly when the JavaScript option is truthy |
| Uploader.TargetSizeRules | client/users/uploader/uploader.js:88-114 | height-only: width is the floor of the proportional width, capped by `max_width`; width-only symmetric; otherwise both as given |
| Uploader.OutcomeOfEachFile | client/users/uploader/uploader.js:369-387 | each file gets its own first failing step's outcome, unless an earlier file saw the abort, and then it is aborted |
| Uploader.Insert | client/users/uploader/uploader.js:389 | inserting keeps every element and adds the new one |
| Uploader.SortByTsDescCorrect | client/users/uploader/uploader.js:389 | `uploaded` is newest first and a permutation of the uploaded media |
| Uploader.AbortAll | client/users/uploader/uploader.js:256-260 | every tracked request has `abort()` called and the list keeps its length |
| Uploader.UploadDialog.constructor | client/users/uploader/uploader.js:31-38 | the module variables start unset |
| Uploader.UploadDialog.InitUploadDialog | client/users/uploader/uploader.js:317-321 | a new batch starts not aborted, with no confirmation on screen and empty lists |
| Uploader.UploadDialog.Abort | client/users/uploader/uploader.js:255-263 | every request is aborted, the batch is marked aborted, nothing else changes |
| Uploader.UploadDialog.ConfirmClose | client/users/uploader/uploader.js:265-271 | the confirmation is shown only when none is on screen, and is then on screen |
| Uploader.UploadDialog.ConfirmAccepted | client/users/uploader/uploader.js:277-282 | accepting clears the confirmation flag and aborts everything |
| Uploader.UploadDialog.ConfirmDeclinedAsWritten | client/users/uploader/uploader.js:283-291 | declining, as written, leaves the confirmation flag set |
| Uploader.UploadDialog.ConfirmDeclined | client/users/uploader/uploader.js:283-291 | declining, as intended, clears the confirmation flag |
| Uploader.UploadDialog.StartUpload | client/users/uploader/uploader.js:194-253 | an aborted batch refuses the file; otherwise the request is tracked and a success appends its media |
| Uploader.UploadDialog.ProcessFile | client/users/uploader/uploader.js:372-386 | one file's outcome is `FileOutcomeOf` unless already aborted; only an upload adds media and a tracked request; an abort during the resize aborts every request made so far |
| Uploader.UploadDialog.AddFiles | client/users/uploader/uploader.js:345-392 | the outcomes are `Outcomes` of the batch, `uploaded` is the sorted uploaded media, and both lists are dropped afterwards |
| Uploader.DeclinedThenCloseAsWritten | client/users/uploader/uploader.js:265-294 | as written, a declined confirmation means a later close never asks again |
| Uploader.DeclinedThenClose | client/users/uploader/uploader.js:265-294 | as intended, a later close asks again |
| DialogMessageDestroy.FetchTarget | server/users/dialog/message/destroy.js:15-44 | the request proceeds iff the viewer is a member, the message is visible, and its dialog is visible and owned by the viewer; NOT_FOUND otherwise |
| DialogMessageDestroy.HideCountsOneLess | server/users/dialog/message/destroy.js:50-55 | hiding a visible message leaves one visible message fewer in its dialog |
| DialogMessageDestroy.CountZeroIffNoneVisible | server/users/dialog/message/destroy.js:52-58 | the count is 0 iff no message of the dialog is visible |
| DialogMessageDestroy.LastMessageRemovesDialog | server/users/dialog/message/destroy.js:57-60 | the dialog is hidden iff the removed message was its last visible one |
| DialogMessageDestroy.DialogStore.Destroy | server/users/dialog/message/destroy.js:15-68 | a failed check changes nothing; otherwise the message is hidden, the response carries the count, and the dialog is hidden iff the count is 0 |
| InfractionInfo.MessageIds | internal/users/infraction/info.js:21-23 | the ids are exactly the `src` of the infractions on dialog messages |
| InfractionInfo.EntriesExactly | internal/users/infraction/info.js:30-63 | an entry is written iff the message is found, and its dialog is found and is owned by the user; text is the markdown, url the link, title the opponent's name or undefined |
| InfractionInfo.InfoEnv.FetchInfractionInfo | internal/users/infraction/info.js:20-64 | `info` is the old map overwritten by those entries; other keys keep their values |
| LoginPlain.First | server/users/auth/login/plain_exec.js:140-154 | `findOne` gives the first matching record, and none only when no record matches |
| LoginPlain.CheckParams | server/users/auth/login/plain_exec.js:40-50 | `login_failed` with captcha false iff the login or the password is empty |
| LoginPlain.EmptyParamsFailFirst | server/users/auth/login/plain_exec.js:40-50 | empty parameters fail before any limit or lookup, without touching the limits |
| LoginPlain.CaptchaOnlyWhenExceeded | server/users/auth/login/plain_exec.js:64-70 | below the total limit the captcha response and verdict change nothing and no failure asks for a captcha |
| LoginPlain.CaptchaFailures | server/users/auth/login/plain_exec.js:77-97 | above the total limit an empty response gives `missed_captcha_solution` and an invalid one `wrong_captcha_solution`, both updating the limits |
| LoginPlain.IpLimitFails | server/users/auth/login/plain_exec.js:115-124 | an exceeded per-IP limit gives `too_many_attempts` and updates the limits |
| LoginPlain.FailuresUpdateLimits | server/users/auth/login/plain_exec.js:27-243 | the limits are updated iff the request fails after the parameter check |
| LoginPlain.EmailBeforeNick | server/users/auth/login/plain_exec.js:133-183 | a plain, existing authlink with that email whose user exists decides the login, and the nick lookup is skipped |
| LoginPlain.SuccessMeansMatchingPlainLink | server/users/auth/login/plain_exec.js:222-260 | success iff all guards pass and a user with an authlink is found whose password matches; that authlink is plain, existing and the user's |
| LoginPlain.NickFallThroughFails | server/users/auth/login/plain_exec.js:209-216 | a nick match without a plain authlink stores the user with a null authlink, and the login fails whichever state `login_do` sees |
| LoginPlain.RateLimits.Update | server/users/auth/login/plain_exec.js:27-30 | one hit on the client's IP and one on the total |
| LoginPlain.LoginEnv.CheckTotalRateLimit | server/users/auth/login/plain_exec.js:57-102 | sets `captcha_required` to the total limit's answer and fails as `CaptchaCheck` says, updating the limits only on a failure |
| LoginPlain.LoginEnv.CheckIpRateLimit | server/users/auth/login/plain_exec.js:108-128 | fails as `IpCheck` says, updating the limits only on a failure |
| LoginPlain.LoginEnv.FindAuthLinkByEmail | server/users/auth/login/plain_exec.js:133-174 | the env's user and authlink become `ByEmail` of their old values |
| LoginPlain.LoginEnv.FindAuthLinkByNick | server/users/auth/login/plain_exec.js:179-219 | the env's user and authlink become `ByNick` of their old values; the callback runs twice when the authlink is missing |
| LoginPlain.LoginEnv.LoginDo | server/users/auth/login/plain_exec.js:222-251 | fails as `LoginCheck` says, updating the limits only on a failure |
| LoginPlain.LoginEnv.ClearOauthData | server/users/auth/login/plain_exec.js:265-268 | the session loses `state` and `oauth` and nothing else |
| LoginPlain.LoginEnv.Run | server/users/auth/login/plain_exec.js:40-268 | the response is `Decide`'s, the limits are updated once iff `Decide` says so, and the session is cleared iff the login succeeds |
| ResetPassword.TokenBySecret | server/users/auth/reset_password/change_exec.js:32-34 | the token found has the key and is stored; none is found only when no token has it |
| ResetPassword.ProviderIndex | server/users/auth/reset_password/change_exec.js:64-66 | the first provider with the token's provider id, or none when no provider has it |
| ResetPassword.Check | server/users/auth/reset_password/change_exec.js:23-75 | a passing check means a valid password and the first token with the key, unexpired, with its existing authlink and the first provider there whose id is the token's |
| ResetPassword.CheckPassesIff | server/users/auth/reset_password/change_exec.js:23-75 | the checks pass iff the password is valid, some token has the key, the first one has not expired, its authlink exists and has a provider with the token's id |
| ResetPassword.RemoveTokens | server/users/auth/reset_password/change_exec.js:84-86 | the tokens left are exactly those of other providers |
| ResetPassword.BadPasswordFirst | server/users/auth/reset_password/change_exec.js:23-30 | an invalid password fails with `bad_password: true` before any token lookup |
| ResetPassword.TokenFailures | server/users/auth/reset_password/change_exec.js:40-75 | `expired_token` iff the token is missing or expired; `broken_token` iff the authlink is missing or has no provider with the token's id |
| ResetPassword.RemovalKeepsOthers | server/users/auth/reset_password/change_exec.js:83-86 | the used token is removed, and tokens of other providers remain |
| ResetPassword.RemovalKeepsOrder | server/users/auth/reset_password/change_exec.js:84-86 | removal works part by part, so the remaining tokens keep their order |
| ResetPassword.SetPassOnlyThatProvider | server/users/auth/reset_password/change_exec.js:77 | only the matching provider's hash changes |
| ResetPassword.ResetStore.Change | server/users/auth/reset_password/change_exec.js:22-114 | a failure changes nothing; on success the hash is set, the provider's tokens are removed, the authlink is saved, then its user is logged in |
| SettingsGrouping.GroupStep | server/admin/users/usergroups/add.js:23-28 | one loop iteration adds exactly one setting under its key |
| SettingsGrouping.GroupedExactly | server/admin/users/usergroups/add.js:22-29 | every setting appears under its own key and no other, and every key holds at least one setting |
| SettingsGrouping.GroupBy | server/admin/users/usergroups/add.js:19-29 | the loop's dictionary is the settings grouped by the key |
| UsergroupsAdd.AddEnv.Add | server/admin/users/usergroups/add.js:15-56 | categories are the settings grouped by category; a DB error is passed on with an empty list; otherwise every group is listed in order with a string id and the response echoes the data |
| UsergroupsShow.OverlayValues | server/admin/usergroups/show.js:44-49 | each setting the group stores shows the stored value, the others are unchanged, and no setting is added or dropped |
| UsergroupsShow.EarlierValueLeaks | server/admin/usergroups/show.js:40-49 | because the schemas are shared, a value from an earlier group survives showing a group that does not store it |
| UsergroupsShow.OverlayAndGroup | server/admin/usergroups/show.js:44-56 | the shared schemas become the overlay with the group's values, and the result is those settings grouped by `group` |
| UsergroupsShow.ShowEnv.Show | server/admin/usergroups/show.js:30-72 | NOT_FOUND for an unknown id; otherwise the shared schemas carry the overlay, groups are by `group`, and `usergroup_id` is the group's id |
| Album.FetchAlbum | server/users/album/album.js:27-51 | no id skips the fetch; an unknown id gives NOT_FOUND; an empty title becomes `default_name` |
| Album.EnabledProviders | server/users/album/album.js:67-76 | the providers are exactly the enabled domains as `{home: 'http://'+id, name: id}` |
| Album.EnabledProvidersKeepOrder | server/users/album/album.js:67-76 | the providers keep the domains' order |
| Album.HeadTitleOf | server/users/album/album.js:94-104 | the username is the name for members and the nick otherwise; the album phrase is used iff an album was fetched |
| Album.FetchedTitleNotEmpty | server/users/album/album.js:47 | with a non-empty default name, a fetched album's title is never empty |
| Album.AlbumEnv.FillProviders | server/users/album/album.js:56-80 | `medialink_providers` is reset and filled with the enabled providers in order |
| Album.AlbumEnv.Run | server/users/album/album.js:27-104 | an unknown album stops the request before the providers; otherwise album, providers and head title are those of the functions above |

## Left out

- I/O, rendering, DOM and modal events, notifications and translations. Translated phrases are kept as their keys and parameters.
- Database errors (`callback(err)`). The exception is the usergroup list of add.js, whose error path is modelled.
- Concurrency: `async.eachLimit` runs up to 4 files at once; the model runs them one after another. The only timing input is whether the user aborts during a file's resize step.
- The uploader's canvas drawing, `pica` resizing, `toBlob` with the JPEG quality passed to it (uploader.js:117), EXIF header splicing, `FileReader` and `$.ajax`. The resized size and the server's answer are inputs.
- The floating-point crop computation (uploader.js:119-120) and all floating point. Sizes and dimensions are integers.
- `models/users/Media.js`, `client/users/auth/register/check_nick.js` and `client/users/auth/register/show.js` are not part of this model.
- The `redirect_not_guest`, `fetch_user_by_hid`, `internal:users.login`, `users.album.list`, `init_embedza` and breadcrumbs sub-calls are foreign. Their results are inputs where the core reads them.
- The rate limiter's windows and thresholds (`_rate_limit` is not part of this model). Its answers are inputs, and its state is the number of updates.
- JavaScript key order in maps is not modelled; results are compared as maps.
- Uploader.DimOptionsOf: an option that is not a number reads as 0; a numeric string such as `"640"`, which JavaScript arithmetic would convert, is not modelled.
- Uploader.TargetSize: requires a positive image width and height; a zero-size image, which would divide by zero, is not modelled.
- Uploader.Exceeds: a string or object `max_size` or `skip_size` compares as false (JavaScript would convert strings to numbers).
- Uploader.KiloBytes: a non-numeric limit shows as 0 kilobytes, where JavaScript would print `NaN`.
- Uploader.ExtensionAllowed: regular-expression metacharacters inside configured extensions are read as literal text.
- Uploader.Lower: case folding covers ASCII letters only.
- Uploader.UploadDialog.AddFiles: after an abort, `eachLimit` stops handing out files; the model gives each remaining file the outcome `Aborted` with no effect.
- ResizeParse.Normalise: `_.cloneDeep` is the identity on immutable values.
- ResizeParse.MergedPreview, ResizeParse.TypeOptions: `_.assign` and `_.omit` from a non-object source copy nothing (a string source would copy its indices).
- ResizeParse.Previews: an array or string `resize` gives no previews, where `_.forEach` would visit its index-keyed entries. A validator that accepts such a `resize` is not modelled further.
- ResizeParse.Extensions: non-string entries of `extentions` are dropped, and a non-array `extentions` gives no types. The validator would refuse both.
- The uploader reads `settings.extensions`, while the server configuration spells the key `extentions`. The server method that converts between them is not part of this model.
- LoginPlain.LoginEnv.FindAuthLinkByNick: the wire framework's handling of a second callback call is not modelled. `login_do` runs once, and `NickFallThroughFails` shows it fails either way.
- UsergroupsAdd: the `_add_meta` head title is a translation only and is not modelled.

## Findings

| source | as written | input that shows it | evidently intended | confidence | as-written member | corrected member |
|---|---|---|---|---|---|---|
| client/users/uploader/uploader.js:265-294 | when the user declines the close confirmation, the `catch` branch shows the upload dialog again but never resets `closeConfirmation` | the user clicks outside the dialog, declines, then clicks outside again: `confirmClose()` returns at once and no confirmation appears; at batch end the still-visible dialog is removed without being hidden | declining resets `closeConfirmation` to false, as accepting does, so a later close asks again | medium, not executed | Uploader.DeclinedThenCloseAsWritten | Uploader.DeclinedThenClose |
