# brickers-native: a Dafny model of the app's rule sets

This project models the deterministic logic of the brickers-native mobile
app, a React Native client that turns photos into LEGO-style brick models.
Its largest part is the LDraw preview:

- how a model identifier is resolved (an http URL, a bundled asset, a local
  file);
- how the loading manager rewrites part file names onto the LDraw
  parts-library layout;
- how the loader's callbacks settle a promise once;
- how a loaded scene tree is disposed;
- how step mode shows the first parts;
- how the load effect guards against results that arrive after it was
  superseded.

Next to it are the app's small state machines:

- the assembly-step stepper;
- the tilt maze;
- the memory-tile game;
- the BrickBot chat screen (reply markers, the send guard, the forms);
- the decisions of the My Page screen;
- level-name normalisation;
- the language provider and its in-memory store.

Screens whose handlers update state step by step are classes whose methods
say the whole new state. Pure helpers are functions. Loops in the source
(the start-cell search, the corner scan, the target draw, the disposal
traversal, the visibility `forEach`) are methods with loop invariants. Each
is proved against a specification function, and the properties are proved
as lemmas about those functions.

Sensors, timers, `Math.random`, the network, the file system and the
LDraw loader are inputs:

- an accelerometer reading is a `Reading` value;
- a timer that fires is a method call;
- `Math.random` is the sequence of tile indices it produced;
- an API call or a file read is its `Result`;
- the loader is the trace of callbacks it makes.

Files, one module each:

- `wrappers.dfy`: `Option` and `Result`.
- `js_text.dfy`: the JavaScript string operations used: `startsWith`, `includes`, global removal, `trim`, ASCII case mapping.
- `preview_urls.dfy`, `scene.dfy`, `ldraw_load.dfy`, `preview_lifecycle.dfy`: `components/preview/ThreeDPreview.tsx`.
- `steps.dfy`: `app/steps.tsx`.
- `maze.dfy`: `components/MazeGame.tsx`.
- `memory_game.dfy`: `components/MemoryGame.tsx`.
- `brick_bot.dfy`: `app/brick-bot.tsx`.
- `my_page.dfy`: `app/my-page.tsx`.
- `level.dfy`: `lib/level.ts`.
- `language.dfy`: `lib/LanguageContext.tsx`.

## Model

| member | source | states |
|---|---|---|
| JsText.IncludesIffOccurs | brickers-native/app/brick-bot.tsx:207-209 | `includes` holds exactly when the pattern occurs at some index |
| JsText.RemoveAllAbsent | brickers-native/app/brick-bot.tsx:211-213 | a global removal of a pattern that does not occur leaves the text unchanged |
| JsText.RemoveAllShrinks | brickers-native/app/brick-bot.tsx:211-213 | removing a pattern that occurs shortens the text by at least the pattern's length |
| JsText.RemoveAllPrefixFree | brickers-native/app/brick-bot.tsx:211-213 | text before the first match is kept, and the match itself is dropped |
| JsText.TrimStart | brickers-native/app/brick-bot.tsx:214 | the result is a suffix, only white space is dropped, and it does not start with white space |
| JsText.TrimEnd | brickers-native/app/brick-bot.tsx:214 | the result is a prefix, only white space is dropped, and it does not end with white space |
| JsText.TrimEmptyIffBlank | brickers-native/app/brick-bot.tsx:251 | `trim` gives '' exactly for blank text; otherwise the result starts and ends with a visible character |
| JsText.TrimsToEmpty | brickers-native/app/brick-bot.tsx:251 | `!text.trim()` is the blankness test |
| JsText.TrimOfTrimmed | brickers-native/app/brick-bot.tsx:214 | text with no white space at either end is its own trim |
| JsText.Lower | brickers-native/components/preview/ThreeDPreview.tsx:184 | `toLowerCase` maps each character, keeping the length |
| JsText.LowerIdempotent | brickers-native/components/preview/ThreeDPreview.tsx:184 | lower-casing twice is lower-casing once |
| JsText.Upper | brickers-native/lib/level.ts:30 | `toUpperCase` maps each character, keeping the length |
| JsText.UpperIdempotent | brickers-native/lib/level.ts:30 | upper-casing twice is upper-casing once |
| JsText.UpperOfLower | brickers-native/lib/level.ts:30 | upper-casing ignores the case of its input |
| PreviewUrls.ResolveAssetUrl | brickers-native/components/preview/ThreeDPreview.tsx:35-57 | http(s) resolves to itself as a URL, and only http(s) gives a URL; a mapped asset gives the text the asset read gives, or its error; a `file://` or `/` path gives the text the file read gives, or its error; text comes from nowhere else; an unmapped asset and an unknown prefix fail with their messages |
| PreviewUrls.PrefixesExclusive | brickers-native/components/preview/ThreeDPreview.tsx:36-54 | the three prefix families are disjoint, so their test order decides nothing |
| PreviewUrls.BundledCarResolves | brickers-native/components/preview/ThreeDPreview.tsx:20-22 | the one bundled model resolves to its asset's text |
| PreviewUrls.StripQuery | brickers-native/components/preview/ThreeDPreview.tsx:182 | the URL is cut at its first `?` or `#`, and what is kept holds neither |
| PreviewUrls.LastSegment | brickers-native/components/preview/ThreeDPreview.tsx:183-184 | the last segment is a suffix with no `/` or `\`, preceded by a separator when it is not the whole string |
| PreviewUrls.FileNameClean | brickers-native/components/preview/ThreeDPreview.tsx:182-184 | the matched file name is lower-case, with no separator and no `?` or `#` |
| PreviewUrls.ModifyUrl | brickers-native/components/preview/ThreeDPreview.tsx:181-185 | with a base that is not http, or an empty file name, the URL is returned unchanged; otherwise the result starts with the parts base |
| PreviewUrls.ModifyUrlRules | brickers-native/components/preview/ThreeDPreview.tsx:187-191 | the rules in order: the colour table in any case to `LDConfig.ldr`, then sub-parts to `parts/s/`, then primitives to `p/`, else `parts/` |
| PreviewUrls.TargetRules | brickers-native/components/preview/ThreeDPreview.tsx:187-191 | the folder and name looked up for each kind of file name |
| PreviewUrls.SubpartNameIffPattern | brickers-native/components/preview/ThreeDPreview.tsx:188 | the scanning matcher accepts exactly the names of `^\d+s\d+[a-z]?\.dat$` |
| PreviewUrls.SubpartNeverPrimitive | brickers-native/components/preview/ThreeDPreview.tsx:188-190 | a sub-part name never passes the primitive test, so the sub-part rule wins without conflict |
| PreviewUrls.ModifyUrlKeepsFileName | brickers-native/components/preview/ThreeDPreview.tsx:180-192 | the rewritten URL asks for the same (lower-cased) file name as the original |
| PreviewUrls.ModifyUrlIdempotent | brickers-native/components/preview/ThreeDPreview.tsx:180-192 | rewriting a rewritten URL changes nothing, for a parts base like the CDN's |
| PreviewUrls.EnsureLocalLdrawLibrary | brickers-native/components/preview/ThreeDPreview.tsx:18-63 | the CDN base is used unconditionally, and it is an http base ending in `/` with no query mark |
| Scene.DisposeOwn | brickers-native/components/preview/ThreeDPreview.tsx:67-74 | one object's callback disposes its geometry, then its single material or each element of its material array |
| Scene.DisposeTree | brickers-native/components/preview/ThreeDPreview.tsx:67-74 | the traversal makes exactly the `dispose` calls of `Disposals`, in traversal order |
| Scene.DisposeObject3D | brickers-native/components/preview/ThreeDPreview.tsx:65-75 | a null root disposes nothing; otherwise the calls are those of the whole tree |
| Scene.SlotsDisposalsMembers | brickers-native/components/preview/ThreeDPreview.tsx:70 | a material array disposes exactly its disposable elements |
| Scene.DisposesEveryNode | brickers-native/components/preview/ThreeDPreview.tsx:67 | every object of the tree has its own resources disposed |
| Scene.DisposesOnlyTree | brickers-native/components/preview/ThreeDPreview.tsx:67-74 | every resource disposed belongs to some object of the tree |
| Scene.WithStepVisibility | brickers-native/components/preview/ThreeDPreview.tsx:280-282 | top-level child i is visible iff i < currentStep; nothing else about the group changes |
| Scene.ApplyStepVisibility | brickers-native/components/preview/ThreeDPreview.tsx:280-282 | the `forEach` produces `WithStepVisibility` |
| Scene.StepShowsFirstParts | brickers-native/components/preview/ThreeDPreview.tsx:280-282 | step k shows the first k parts, clamped to the part count |
| Scene.StepKeepsResources | brickers-native/components/preview/ThreeDPreview.tsx:278-283 | changing visibility does not change what disposal releases |
| LDrawLoad.MessageOf | brickers-native/components/preview/ThreeDPreview.tsx:129 | the rejection text is the error's message, or `String(err)` for an error whose message is falsy (`name: message`, the name alone for an `Error` with an empty message) |
| LDrawLoad.SuccessSettlement | brickers-native/components/preview/ThreeDPreview.tsx:90-123 | an Error instance rejects with its message; null rejects; a graph with `add`, or a `scene` with one, is accepted; anything else rejects with its error-like message or "Invalid result type" |
| LDrawLoad.LoaderPromise.HandleSuccess | brickers-native/components/preview/ThreeDPreview.tsx:86-124 | ignored once settled, otherwise settles with the classification of the value |
| LDrawLoad.LoaderPromise.HandleError | brickers-native/components/preview/ThreeDPreview.tsx:126-132 | ignored once settled, otherwise rejects with the error's message |
| LDrawLoad.Settle | brickers-native/components/preview/ThreeDPreview.tsx:84-132 | the promise is settled exactly when some callback arrived |
| LDrawLoad.SettleOnce | brickers-native/components/preview/ThreeDPreview.tsx:84-132 | callbacks after the first change nothing |
| LDrawLoad.EmptyTextRejects | brickers-native/components/preview/ThreeDPreview.tsx:138 | empty model text is rejected before the loader runs |
| LDrawLoad.CallbackBeatsSyncResult | brickers-native/components/preview/ThreeDPreview.tsx:142-148 | a result delivered by `parse`'s callback wins over the value `parse` returns |
| LDrawLoad.Deliver | brickers-native/components/preview/ThreeDPreview.tsx:84-132 | handing callbacks to a pending promise settles it like `Settle` does; a settled one keeps its settlement |
| LDrawLoad.LoadLDrawGroup | brickers-native/components/preview/ThreeDPreview.tsx:78-154 | the promise reaches the settlement of the first of all callbacks it receives, including a thrown error and a sync `parse` result |
| PreviewLifecycle.PreviewHost.StartLoad | brickers-native/components/preview/ThreeDPreview.tsx:212-219 | a run activates the shared flag and clears the group; an empty url or parts base stops it at once |
| PreviewLifecycle.PreviewHost.StartTokenLoad | brickers-native/components/preview/ThreeDPreview.tsx:212-219 | the same run with a fresh flag of its own, active and not shared with any other run |
| PreviewLifecycle.LoadRun.PreloadDone | brickers-native/components/preview/ThreeDPreview.tsx:222 | a loaded palette moves on to resolving the source; a failure ends the run, clearing the group only while active |
| PreviewLifecycle.PreviewHost.Dispose | brickers-native/components/preview/ThreeDPreview.tsx:65-75 | the released resources grow by the tree's disposals |
| PreviewLifecycle.PreviewHost.ApplyStepMode | brickers-native/components/preview/ThreeDPreview.tsx:278-283 | with a group and step mode on, the step visibility is applied; otherwise the group is unchanged |
| PreviewLifecycle.LoadRun.Fail | brickers-native/components/preview/ThreeDPreview.tsx:262-266 | an error clears the group only while the run is active |
| PreviewLifecycle.LoadRun.SourceResolved | brickers-native/components/preview/ThreeDPreview.tsx:224-225 | a run that became inactive stops after resolving, without touching the group |
| PreviewLifecycle.LoadRun.LoadSettled | brickers-native/components/preview/ThreeDPreview.tsx:228-266 | an inactive run disposes the late group and neither reports nor shows it; an active run reports `children.length` when `onStepCountChange` was given, keeps the group for cleanup and shows it; a rejection clears the group only while active |
| PreviewLifecycle.LoadRun.Cleanup | brickers-native/components/preview/ThreeDPreview.tsx:271-274 | cleanup deactivates the run and disposes the group it committed, if any |
| PreviewLifecycle.SupersededLoadAsWritten | brickers-native/components/preview/ThreeDPreview.tsx:212-274 | with the shared flag, a superseded run's late group is shown and reported and never disposed |
| PreviewLifecycle.SupersededLoadWithToken | brickers-native/components/preview/ThreeDPreview.tsx:212-274 | with a flag per run, the same late group is not shown, not reported, and disposed |
| Steps.PreviewUrl | brickers-native/app/steps.tsx:16-48 | the preview gets the param, or the first element of a repeated param, and null for a missing or empty one |
| Steps.StepAfterNext | brickers-native/app/steps.tsx:23-27 | Next moves up by one only below the step count |
| Steps.StepAfterPrev | brickers-native/app/steps.tsx:29-33 | Prev moves down by one only above step 1 |
| Steps.StepsStayInRange | brickers-native/app/steps.tsx:13-33 | the step never drops below 1, and Next never passes the step count of the moment |
| Steps.PrevNextInverse | brickers-native/app/steps.tsx:23-33 | away from both ends, Prev undoes Next and Next undoes Prev |
| Steps.NextReachesLast | brickers-native/app/steps.tsx:23-27 | n presses of Next reach min(current + n, total) |
| Steps.StepsScreen.HandleNext | brickers-native/app/steps.tsx:23-27 | the handler moves the step as `StepAfterNext` says and keeps it at least 1 |
| Steps.StepsScreen.HandlePrev | brickers-native/app/steps.tsx:29-33 | the handler moves the step as `StepAfterPrev` says and keeps it at least 1 |
| Steps.StepsScreen.OnStepCountChange | brickers-native/app/steps.tsx:51 | the reported count becomes the step count; the step is left alone |
| Steps.DisabledButtonsAreNoOps | brickers-native/app/steps.tsx:65-76 | Prev is disabled (step 1) exactly when pressing it changes nothing; a disabled Next (step = count) changes nothing, and within the count Next is disabled exactly when pressing it changes nothing |
| Maze.LevelBoard | brickers-native/components/MazeGame.tsx:57-63 | the cell size is the smaller of the window width less the padding divided by the row length, and the level's cell size; the ball has the level's size |
| Maze.LastStartCell | brickers-native/components/MazeGame.tsx:71-78 | the last cell holding 2 in row-major order, or none |
| Maze.FindStart | brickers-native/components/MazeGame.tsx:70-78 | the nested `forEach` ends on the last start cell, or (0, 0) |
| Maze.PlacementCentred | brickers-native/components/MazeGame.tsx:81-82 | the placed ball is centred on its cell |
| Maze.Tilt | brickers-native/components/MazeGame.tsx:90-157 | the listener's loop with its `collision` flag and `break` gives the outcome of the reference reading `TiltOutcome` |
| Maze.MoveRules | brickers-native/components/MazeGame.tsx:95-157 | a move goes to current + (5x, -5y), keeps the centre on the board and touches no wall |
| Maze.OffBoardStays | brickers-native/components/MazeGame.tsx:108-118 | a centre off the board leaves the ball where it is |
| Maze.WallBlocks | brickers-native/components/MazeGame.tsx:129-138 | an in-grid corner on a wall prevents the move |
| Maze.WinRules | brickers-native/components/MazeGame.tsx:122-152 | a win needs a corner and the centre on goal cells, with every earlier corner passing |
| Maze.LevelAfter | brickers-native/components/MazeGame.tsx:167-176 | the next level, or back to 0 after the last, always a valid level |
| Maze.LevelsCycle | brickers-native/components/MazeGame.tsx:167-176 | three wins come back to the same board |
| Maze.MazeGame.NextLevel | brickers-native/components/MazeGame.tsx:167-176 | the level advances and `onComplete` is counted once after the last level, if given |
| Maze.MazeGame.OnReading | brickers-native/components/MazeGame.tsx:90-176 | a reading moves the ball, leaves it, or wins: the next level's board, the ball on its start, and `onComplete` counted once after the last level if given |
| Maze.MazeGame.PlaceBall | brickers-native/components/MazeGame.tsx:70-83 | the ball is centred on the last start cell of the current level's board |
| MemoryGame.TargetCount | brickers-native/components/MemoryGame.tsx:70 | min(3 + (level - 1), 15): at least 3 from level 1, at most 15 |
| MemoryGame.DedupDistinct | brickers-native/components/MemoryGame.tsx:76-77 | the indices kept by the draw loop are distinct |
| MemoryGame.DedupSameValues | brickers-native/components/MemoryGame.tsx:73-79 | the kept indices are exactly the values drawn |
| MemoryGame.PickTargets | brickers-native/components/MemoryGame.tsx:73-79 | the loop keeps the first `targetCount` distinct draws |
| MemoryGame.RoundTargets | brickers-native/components/MemoryGame.tsx:70-79 | a round's targets are exactly `targetCount` distinct indices in [0, 25) |
| MemoryGame.ScoreAfterSuccess | brickers-native/components/MemoryGame.tsx:122-123 | a cleared round adds 100 + 10·level |
| MemoryGame.MemoryGame.StartNewRound | brickers-native/components/MemoryGame.tsx:62-80 | the round state is reset to a countdown of 3 with nothing selected or wrong, and new targets are drawn |
| MemoryGame.MemoryGame.Advance | brickers-native/components/MemoryGame.tsx:87-107 | the countdown decreases while positive, then SHOW, then PLAY; other states are left alone |
| MemoryGame.MemoryGame.HandleTilePress | brickers-native/components/MemoryGame.tsx:109-140 | taps outside PLAY or on used tiles change nothing; a target is selected and the last one scores, raises the level and schedules the next round; a miss resets score and level |
| MemoryGame.MemoryGame.FireRoundTimer | brickers-native/components/MemoryGame.tsx:126-138 | the scheduled round starts at the scheduled level: a countdown of 3, nothing selected or wrong, the "ready" message and new targets |
| MemoryGame.MemoryGame.ChangeLanguage | brickers-native/components/MemoryGame.tsx:58-85 | a language change shows "ready" and restarts a round of level 1 from a countdown of 3 |
| MemoryGame.MemoryGame.constructor | brickers-native/components/MemoryGame.tsx:47-85 | the mounted game is at level 1 with score 0, counting down from 3 on a round of three targets |
| MemoryGame.ClearAfterAllTargets | brickers-native/components/MemoryGame.tsx:114-117 | as many distinct selections as targets means every target was found |
| BrickBot.ActionRoute | brickers-native/app/brick-bot.tsx:219-231 | each action opens its own screen |
| BrickBot.ActionsInMeaning | brickers-native/app/brick-bot.tsx:204-209 | an action is listed exactly when its marker occurs, in the fixed order, at most once, and the list is empty exactly without markers |
| BrickBot.FindActions | brickers-native/app/brick-bot.tsx:204-209 | the pushes list the actions of the markers present |
| BrickBot.ParseBotResponse | brickers-native/app/brick-bot.tsx:203-217 | the actions are those of the markers in the original text, in order; the text is the removal of each marker in turn, then trimmed |
| BrickBot.NoMarkerIsTrim | brickers-native/app/brick-bot.tsx:211-214 | a reply without markers is only trimmed |
| BrickBot.CleanTextTrimmed | brickers-native/app/brick-bot.tsx:214 | the shown text neither starts nor ends with white space |
| BrickBot.RemovalCanReformMarker | brickers-native/app/brick-bot.tsx:211-214 | removal can re-form a marker: `{{NAV_{{NAV_CREATE}}CREATE}}` becomes `{{NAV_CREATE}}` |
| BrickBot.BotMessageMeaning | brickers-native/app/brick-bot.tsx:262-268 | the bot message shows the cleaned text and carries actions exactly when some marker occurs |
| BrickBot.BrickBotScreen.HandleSend | brickers-native/app/brick-bot.tsx:250-256 | blank text or a pending reply does nothing; otherwise the untrimmed text is posted, the input cleared and loading set |
| BrickBot.BrickBotScreen.ReceiveReply | brickers-native/app/brick-bot.tsx:258-273 | the reply's message, or the error message, is appended and loading ends |
| BrickBot.BrickBotScreen.SubmitInquiry | brickers-native/app/brick-bot.tsx:276-288 | it submits exactly when title and content are not blank; success returns to chat with a confirmation, failure alerts |
| BrickBot.BrickBotScreen.SubmitReport | brickers-native/app/brick-bot.tsx:290-307 | it submits a GENERAL report with id '0' exactly when the content is not blank; success returns to chat with a confirmation, failure alerts |
| BrickBot.BrickBotScreen.HandleSuggestionClick | brickers-native/app/brick-bot.tsx:233-248 | the inquiry and report suggestions open their forms and leave the input alone (a logged-out user only gets an alert, nothing else changes); any other is sent as `handleSend` sends it, with the form fields unchanged |
| MyPage.GetJobThumbUrl | brickers-native/app/my-page.tsx:112-113 | the first non-empty of the preview, corrected and source images, else '' |
| MyPage.GetStatusMeta | brickers-native/app/my-page.tsx:115-124 | the five statuses get their label and colour; any other shows itself or '-', in '#9CA3AF' |
| MyPage.StatusColorFixed | brickers-native/app/my-page.tsx:115-124 | badge colours do not depend on the language, and an unknown status is coloured like a cancelled one |
| MyPage.OpenJob | brickers-native/app/my-page.tsx:126-142 | a DONE job with a model opens the result with `ldrUrl` preferred and `id` preferred; FAILED alerts with its error message or the default; anything else is reported in progress |
| MyPage.DoneWithoutModelIsPending | brickers-native/app/my-page.tsx:127-141 | a DONE job without a model file is treated like a running one |
| MyPage.CanRetryStatuses | brickers-native/app/my-page.tsx:344 | retry is offered exactly for FAILED, CANCELED and QUEUED |
| MyPage.IsPro | brickers-native/app/my-page.tsx:49 | PRO is decided by the profile's plan when it has one, else by the membership's |
| MyPage.ProfilePlanWins | brickers-native/app/my-page.tsx:49 | a non-empty profile plan hides the membership's plan |
| MyPage.Checkout | brickers-native/app/my-page.tsx:193-214 | a PRO member is never sent to checkout; a missing checkout url and a failure alert with their messages and nothing applied; once the membership is re-read it is applied, then the alert is '결제 완료' if refreshing the user succeeds and '결제 실패' (with the membership already applied) if it fails |
| MyPage.LoadAll | brickers-native/app/my-page.tsx:57-82 | each of the three results is applied only when its request fulfilled; loading ends in every case |
| MyPage.LoadAllIndependent | brickers-native/app/my-page.tsx:61-76 | whether one request fails does not change what the others set |
| MyPage.ProfileReplyDecidesPro | brickers-native/app/my-page.tsx:49-67 | a fetched PRO profile makes the member PRO whatever the membership request did |
| Levels.GetSavedLevel | brickers-native/lib/level.ts:8-18 | only an exact level name is adopted; anything else, a failed read among them, gives L2 |
| Levels.SavedLevelRoundTrip | brickers-native/lib/level.ts:8-26 | a saved level reads back as itself |
| Levels.ResolveLevel | brickers-native/lib/level.ts:28-35 | L1 or L3 exactly when the upper-cased first value names it, L2 otherwise, a missing or empty input among them |
| Levels.ResolveName | brickers-native/lib/level.ts:29-33 | a level's name, alone or first in an array, resolves to that level |
| Levels.ResolveLevelIdempotent | brickers-native/lib/level.ts:28-35 | resolving a resolved level gives it back |
| Levels.ResolveLevelIgnoresCase | brickers-native/lib/level.ts:30 | the case of the input does not matter |
| Levels.SavedLevelIsCaseSensitive | brickers-native/lib/level.ts:11-30 | storage reads are case-sensitive while route parameters are not: 'l1' is L2 from storage and L1 as a parameter |
| Language.Lookup | brickers-native/lib/LanguageContext.tsx:25 | a key reads back its value unless it is missing or the value is '' |
| Language.LookupAfterStore | brickers-native/lib/LanguageContext.tsx:19-36 | a stored value reads back unless empty, and no other key changes |
| Language.MemoryStorage.GetItem | brickers-native/lib/LanguageContext.tsx:19-26 | `getItem` returns the lookup of the key |
| Language.MemoryStorage.SetItem | brickers-native/lib/LanguageContext.tsx:28-36 | `setItem` stores the value under the key and changes nothing else |
| Language.ParseLanguage | brickers-native/lib/LanguageContext.tsx:47 | only 'ko', 'en' and 'ja' are adopted |
| Language.StoredLanguageRoundTrip | brickers-native/lib/LanguageContext.tsx:46-62 | a stored language code reads back as that language |
| Language.LanguageProvider.constructor | brickers-native/lib/LanguageContext.tsx:40-41 | the provider starts in Korean, not initialised |
| Language.LanguageProvider.LoadLanguage | brickers-native/lib/LanguageContext.tsx:43-72 | a valid saved language is adopted, otherwise the language is kept, and the children render afterwards in every case |
| Language.LanguageProvider.SetLanguage | brickers-native/lib/LanguageContext.tsx:59-66 | the language is set and its code stored under `appLanguage` |
| Language.RemountKeepsLanguage | brickers-native/lib/LanguageContext.tsx:13-66 | a provider mounted over the storage a language was saved to starts in that language and renders |
| Language.FreshStartIsKorean | brickers-native/lib/LanguageContext.tsx:40-47 | an invalid saved value leaves the provider in Korean |

## Left out

- LDraw parsing, `preloadMaterials` and the loader's internal work are not modelled. The loader is the trace of callbacks it makes, and `preloadMaterials` is only its outcome (`PreloadDone`).
- The load effect's validity check of `g.position`/`g.rotation`, the rotation, the `Box3` centring and `isFinite` are left out (ThreeDPreview.tsx:236-250). A fulfilled group is taken to have those members. They are floating-point geometry inside three.js.
- The loading manager's progress and error logging, and all `console` output, are left out.
- Canvas, Bounds, OrbitControls, lights, the placeholder meshes and all other rendering are UI.
- Asset download and `FileSystem.readAsStringAsync` are parameters returning text or an error. So is the "Could not download asset" failure.
- JsText.Lower, JsText.Upper: only ASCII letters change case, and JavaScript's full Unicode case mapping is not modelled.
- JavaScript's lookup of prototype keys (`map[status]` for a status such as `"toString"`, `_data[key]` for such a key) is not modelled. Dictionaries are plain Dafny maps.
- The web `localStorage` branch of the language store is not modelled. Only the in-memory `_data` branch is.
- Message ids built from `Date.now()` are not modelled, and neither is the translated-text tables' content. Translations are parameters (`ChatText`, `StatusLabels`, the memory game's `Message`). The Korean alert texts that my-page.tsx writes out literally are constants.
- Maze: the ball reads `Math.floor` of exact real positions. Positions are `real`s, not IEEE doubles. The animated shared values, the sensor subscription and `setUpdateInterval` are left out. A `TypeError` from reading a row past the board is the outcome `Crashed`.
- Maze.MazeGame.OnReading: a win is handled at once, while the source defers `nextLevel` through `runOnJS` (MazeGame.tsx:164); readings that arrive before the re-render, which are still handled on the old board and can win again and call `onComplete` more than once, are not modelled.
- MemoryGame: `Math.random` is the sequence of tile indices it produced. The draw loop only ends when enough distinct indices were drawn, which is a precondition. The timers are method calls (`Advance`, `FireRoundTimer`), and clearing a timer on cleanup is not modelled.
- BrickBot: `isSubmitting` is set and reset within one method, so a second submit while a request is pending is not modelled. The chat, inquiry and report APIs are their outcome.
- MyPage: `formatDate`, `loadJobs`, `loadInquiries`, `loadReports`, `loadPlans`, profile editing, deleting the account and retrying a job are left out. They are API calls, locale formatting or UI. A falsy record field is the empty string.
- Scene: the step-mode `forEach` mutates the children in place. Here it produces a new tree value, so aliasing between the group and other references is not modelled.
- The remaining screens and helpers are not part of this model: authentication, the API client, generation polling, the camera, login, result, gallery and the 3D background.

## Findings

| source | as written | input that shows it | evidently intended | confidence | as-written member | corrected member |
|---|---|---|---|---|---|---|
| brickers-native/components/preview/ThreeDPreview.tsx:173-274 | `isActiveRef` is one ref for the whole component. Each run of the load effect sets it back to `true`, so the cleanup of a superseded run is undone by the next run | `url` changes while the first model is still loading, and the first load's group arrives after the second run has started | a superseded run's late result is discarded and disposed, as the guard comments say | not executed | PreviewLifecycle.SupersededLoadAsWritten | PreviewLifecycle.SupersededLoadWithToken |
