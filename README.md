# A verified model of the LINE badminton-coaching bot

The bot coaches badminton players over LINE. Each user has a **session**, a record
`{UserState, ActionStep, Skill, Handedness, UpdatedDate}` stored in Firestore. A rich-menu
entry puts the session into a feature state at its skill-selection step. Postbacks (button
presses carrying a JSON payload) and messages then move it step by step:

- writing notes;
- chatting with GPT;
- viewing expert videos;
- viewing the portfolio;
- uploading and analysing a video.

Each user also has a **portfolio**: per skill (serve, smash, clear), a map from a
`2006-01-02-15-04` timestamp to a work. A work holds a grade, three notes and videos. Videos
go to a Cloud Storage bucket and are graded by a pose-estimation server, which the bot retries
a bounded number of times. Replies to the user are LINE messages, among them a carousel of
portfolio cards with star ratings.

Around the bot sit:

- a chat log with a cached daily summary;
- per-day grade statistics, with two LIFF class pages that chart a class's daily average
  beside the viewer's own;
- a one-off Python script that renames camelCase Firestore keys to snake case.

The Dafny modules follow the source files one to one:

| Area | Modules |
|---|---|
| The application object | `AppState` |
| Event dispatch | `EventHandlers`, `MessageHandlers`, `RichMenuHandlers`, `PostbackHandlers`, `ErrorHandlers` |
| Postback decoding | `Postback` |
| Enum codecs | `Types` |
| The stores | `Sessions`, `Users`, `Storage`, `ChatHistory`, `DailySummary` |
| Per-event lookups | `UserUtils` |
| The video pipeline | `VideoUtils`, `LegacyVideo` |
| LINE replies | `LineBot` covers the senders; `LineClient` covers the asset URLs |
| Portfolio carousel | `UI`, with `TimeKeys` for its timestamp keys |
| The HTTP API of `linebot/main.go` | `ChatApi` |
| Statistics | `Stats` |
| The class pages | `ClassPage`, `ClassChart`, `DateOrder` |
| The migration script | `SnakeCase`, `Migrate`, `PyDict` |

How the model represents the system:

- **Stores.** Each store is a class over a map of documents. A fixed set of `unavailable`
  documents is one whose every request fails, so the error paths are modelled too.
- **Replies.** LINE replies are appended to the client's `trace`. A fixed set of `rejected`
  replies is those that LINE refuses.
- **External services.** GPT, the pose-estimation server, ffmpeg, the local file system and
  the clock are functions fixed on the application object, that is, oracles.
- **Go panics.** Nil-map writes, out-of-range enum labels and nil dereferences are
  reported as a `panicked` result that ends the event loop.
- **Whole-state effects.** The handlers' contracts relate a snapshot of the sessions, users,
  replies and bucket objects before the call to the snapshot after it. That is why the effect
  of one event (EventHandlers.EventStep) can be composed over a whole request, whose
  intermediate snapshots HandleEvents returns.
- **Map order.** Go's map iteration order is a parameter. The statistics are proved, in exact arithmetic, not to
  depend on it.

Where the two snapshots or the files of `linebot/` disagree, the model follows the code that
the `linebot/` handlers actually call. `linebot/` has no `api/line/text_message_utils.go` of
its own, so the reply helpers its handlers call are taken from the top-level copy, with
SendReply's error corrected as the first Findings row says:

- `session.UpdatingDate` in `linebot/app/postback_handlers.go` is the `UpdatedDate` field of
  `linebot/api/db/sessions.go`.
- `ReadingInstruction`, `SelectingHandedness` and `SelectingPortfolio` are used by the
  handlers but not declared in `api/db/types.go`. They get the next free codes: 8, 7 and 8.
- `CreateUserPortfolioVideo` in `linebot/api/db/users.go` is called with the uploaded bucket
  objects and a comparison file, as its callers do.
- `uploadVideoContent` (linebot/app/postback_handlers.go:531) calls `updateUserPortfolioVideo`
  with six arguments, but linebot/app/video_utils.go:84 declares seven, the sixth being a
  comparison file. The model passes the video and thumbnail files the call names, and fills
  the missing comparison file with an empty one: name `""` and the bare bucket URL
  `ObjectURL(bucket, "")` (VideoUtils.UpdateUserPortfolioVideo).
- `stitchVideoWithExpertVideo` returns both of its paths, and its caller uses the first.
- `SendPortfolio` in `api/line/text_message_utils.go` takes a `userState` it never uses and no
  handedness, while its callers in `linebot/app` pass both, and the card builder of
  `linebot/api/line/ui.go` needs the handedness. The model takes the callers' handedness and
  passes it to that card builder; it drops `userState`.
- `getSkillUrls` (api/line/text_message_utils.go:220-274) keys its hard-coded clip table by
  `db.Lift`, `db.Drop`, `db.Netplay`, `db.Footwork` and `db.Strategy`, none of which
  api/db/types.go declares (it has only Serve, Smash and Clear). The model does not copy the
  table: the clips per handedness and skill are a parameter of the LINE client
  (LineBot.Client.expertUrls).
- `handleAddMessageToGPTConversationError` (linebot/app/postback_handlers.go:160) and
  `handleMessageResponse` (app/richmenu_handlers.go:8-43) are called but defined nowhere in the
  source. The model takes both to be handleLineError, as every other handle*Error wrapper is
  (ErrorHandlers.HandleLineError).
- CreateUserData (linebot/api/db/users.go:71-75) reads `RootFolderID`, `ServeFolderID` and the
  other folder-ID fields of a `storage.UserFolders`, but that struct
  (linebot/api/storage/storage_client.go:20-24) has only `UserID`, `UserName` and `RootPath`.
  The model leaves the copy to a parameter of the application object (`folderPathsOf`).

## Model

| member | source | states |
|---|---|---|
| AppState.App.constructor | linebot/app/app.go:14-21 | the application object holds the session and user collections, the LINE client and the bucket client it is built with, together with the services that are fixed parameters |
| AppState.Put | linebot/api/db/sessions.go:29-35 | a Set of a session to an available document stores exactly that session under the user ID and adds the ID if it was new; a document whose writes fail keeps its old value or stays absent; every other document keeps its value |
| AppState.Reset | linebot/api/db/sessions.go:73-86 | after ResetSession the user's session is the default (no state, no step, empty skill, handedness and date), and no other user's document appears or disappears |
| AppState.ResetIdempotent | linebot/api/db/sessions.go:73-86 | resetting a session twice leaves the collection as resetting it once |
| AppState.PostbackData | linebot/app/postback_handlers.go:412-417 | a postback event yields its own postback text, and an event that is not a postback yields empty postback text |
| AppState.Json | api/line/postback_utils.go:31-34 | empty postback text does not unmarshal to a JSON object; any other text is what json.Unmarshal makes of it |
| ErrorHandlers.HandleLineError | linebot/app/error_handlers.go:17-27 | a nil error sends nothing; any other error sends exactly one default error reply, whose own failure is only logged |
| ErrorHandlers.HandleSendPortfolioError | linebot/app/error_handlers.go:85-97 | a missing portfolio is answered with the no-portfolio text for its skill, and panics when the skill has no Chinese name; a failed reply gets the default error reply; no error sends nothing |
| EventHandlers.Prepared | linebot/app/user_utils.go:86-97 | createUserSessionIfNotExist keeps a session that can be read; a missing one becomes the default session; a document whose writes fail is left as it was; every other user keeps exactly their document |
| EventHandlers.HandleFollowEvent | linebot/app/event_handlers.go:23-27 | corrected, as the second Findings row has it: a follow is answered with the welcome text carrying the user's display name, then the default error reply only when LINE refuses it; a profile LINE does not give gets just the default error reply; sessions, users and storage are untouched |
| EventHandlers.HandleFollowEventAsWritten | linebot/app/event_handlers.go:23-27 | as written, a follow from a user with a profile gets the welcome and then the default error reply, even when LINE accepts the welcome; one without a profile gets only the default error reply |
| EventHandlers.FollowAsWrittenDiffers | linebot/app/event_handlers.go:23-27 | the follow handler as written and the corrected one differ only by one default error reply, after a welcome LINE accepts |
| EventHandlers.HandleUnsupportedEvent | linebot/app/event_handlers.go:29-35 | an unsupported event gets exactly one default error reply |
| EventHandlers.HandleEvent | linebot/app/event_handlers.go:6-19 | one event: the user is fetched or created, and a panic there ends the event; then the session is fetched or created; then the handler of the event's type has its whole effect on sessions, users, replies and bucket: the corrected follow (see "## Left out"), the message effect, the postback effect (every state handler and intercepted payload with its own effect, and a missing record panicking at its first use), or one default error for an unsupported event |
| EventHandlers.HandleEvents | linebot/app/event_handlers.go:5-21 | the events are handled in list order and a panic stops the rest; the states between the iterations are linked, each by the per-event effect of its event (with the corrected follow, see "## Left out"); a run of unsupported events from known users sends their default error replies in order and creates no user |
| MessageHandlers.RouteMessage | app/message_handlers.go:8-34 | a video message goes to the upload handler, any other non-text message is dropped, a text that is a rich-menu label goes to the menu dispatch with that label's state, and any other text to the state machine; each route holds exactly when its condition does |
| MessageHandlers.HandleRichMenuMessage | app/message_handlers.go:42-64 | the instruction entry resets the session; each of the five feature entries writes its state at the SelectingSkill step and sends its skill prompt; any other state only gets the "please pick a menu item" text and leaves the sessions alone |
| MessageHandlers.HandleMessageEvent | app/message_handlers.go:8-34 | a dropped message changes nothing; a video runs the upload handler, whose success flag and every failure are fixed by the inputs, a menu label runs the matching menu entry, and any other text runs the state machine, each with its whole effect; a missing record panics only where it is first used: without a user a video panics, and a label that is no menu entry still gets the default reply; without a session a video whose content is missing gets one default error, and the state machine runs handleUserState's missing-record effect |
| RichMenuHandlers.MenuSession | app/richmenu_handlers.go:11-44 | a feature entry leaves the chosen state at its SelectingSkill step with skill, handedness and date empty |
| RichMenuHandlers.ProcessReadingInstruction | app/richmenu_handlers.go:5-9 | the session is reset and the instructions are sent, followed by the default error reply exactly when LINE refuses the instructions |
| RichMenuHandlers.ProcessMenuEntry | app/richmenu_handlers.go:11-44 | the session ends as the reset default with the entry's state and SelectingSkill; the entry's own prompt is sent with the state the user was in, and only a refused prompt adds the default error reply, since the state write's error is overwritten |
| LineClient.TrimLeftSlashes | linebot/api/line/line_client.go:42 | the result is a suffix of the input, everything dropped is '/', and the result does not start with '/' |
| LineClient.AssetURL | linebot/api/line/line_client.go:37-44 | an http or https URL is returned unchanged; any other path becomes the public storage URL of the bucket object with leading slashes dropped; the result is always an http(s) URL |
| LineClient.AssetURLIdempotent | linebot/api/line/line_client.go:37-44 | normalising an already normalised URL changes nothing |
| LineClient.LeadingSlashesIgnored | linebot/api/line/line_client.go:42-43 | a path with an extra leading slash names the same object URL |
| Types.Index | api/db/types.go:24-26 | indexing a fixed label array yields the label exactly when the code is inside the array, and the panic otherwise |
| Types.HandednessStrToEnum | api/db/types.go:61-70 | exactly "left" and "right" decode, each to the constant whose label it is; anything else is the "invalid handedness" error |
| Types.SkillStrToEnum | api/db/types.go:89-100 | an unknown label decodes to -1 and a known one to the constant whose label it is |
| Types.UserStateStringInjective | api/db/types.go:13-26 | each of the eight user states has a label and no two share one |
| Types.ActionStepStringShifted | api/db/types.go:31-43 | the step labels list six names for seven constants, so UploadingVideo reads "chatting", the next two read their successor's label, Empty has none, and no step reads "uploading_video" |
| Types.HandednessRoundTrip | api/db/types.go:53-70 | decoding a handedness's label gives it back, and it has a Chinese label |
| Types.SkillRoundTrip | api/db/types.go:81-100 | decoding a skill's label gives it back, and it has a Chinese label |
| Types.UnknownSkillHasNoLabel | api/db/types.go:81-100 | an unknown skill label decodes to -1, whose English and Chinese labels are both out of range |
| UI.GetPortfolioRating | linebot/api/line/ui.go:16-30 | the loop that lowers the remaining rating by 20 per icon produces the five icons of StarIcons: gold while at least 20 remains, then gray |
| UI.GoldIff | linebot/api/line/ui.go:19-29 | icon i is gold exactly when the grade less 20·i is still at least 20, which is when i is below the clamped ⌊grade/20⌋ |
| UI.GoldStarsForGrade | linebot/api/line/ui.go:16-30 | a non-negative grade shows min(5, ⌊grade/20⌋) gold stars, all of them before the gray ones |
| UI.NotesSection | linebot/api/line/ui.go:167-195 | a note section keeps its heading, shows the note when there is one and the "無內容" placeholder otherwise, and is never blank |
| UI.CreateButtonActions | linebot/api/line/ui.go:48-164 | five footer slots: edit reflection and edit preview note (in that order, each a writing-notes postback for the work's date and skill), ask AI, play the video at a public URL, and a comparison-video slot that is filled exactly when the work has a comparison video |
| UI.NoteLabels | linebot/api/line/ui.go:49-63 | the note buttons send the state "writing_notes" and the steps "writing_reflection" and "writing_preview_note" |
| UI.CarouselItem | linebot/api/line/ui.go:198-249 | with buttons the footer holds all five slots, without them the last three |
| UI.FooterWithoutButtonsCannotEditNotes | linebot/api/line/ui.go:232-247 | a bubble shown without buttons has no slot that edits a note |
| UI.NotesInOrder | linebot/api/line/ui.go:227-229 | each bubble shows three notes, AI note, preview note and reflection in that order, each showing the note when written and never blank |
| UI.MapValues | linebot/api/line/ui.go:263 | maps.Values: the works of the map, one per key, in some order of the keys |
| UI.InsertDescending | linebot/api/line/ui.go:264-268 | inserting a work into a newest-first list keeps it newest first and adds exactly that work |
| UI.InsertBehind | linebot/api/line/ui.go:264-268 | a work older than the head goes behind it and the list stays ordered and complete |
| UI.ConsDescending | linebot/api/line/ui.go:264-268 | a head at least as new as the next element keeps the list newest first |
| UI.SortDescending | linebot/api/line/ui.go:264-268 | the reference sort is newest first and a permutation of its input |
| UI.SortWorks | linebot/api/line/ui.go:262-275 | the result holds every work of the map exactly once and is ordered newest key first |
| UI.AppendEach | linebot/api/line/ui.go:270-273 | the copy loop returns the sorted works unchanged |
| UI.Reverse | linebot/api/line/ui.go:297 | slices.Reverse puts element i at position n-1-i |
| UI.ChunksCount | linebot/api/line/ui.go:281-294 | n bubbles make ⌈n/10⌉ carousels |
| UI.ChunksBounded | linebot/api/line/ui.go:284-294 | no carousel is empty or holds more than ten bubbles |
| UI.ChunksFlatten | linebot/api/line/ui.go:281-294 | the carousels read in order give back every bubble exactly once, in order |
| UI.ChunksAppend | linebot/api/line/ui.go:285-294 | appending up to ten bubbles to a whole number of full carousels adds exactly one carousel |
| UI.Items | linebot/api/line/ui.go:281-282 | one bubble per sorted work |
| UI.GetCarousels | linebot/api/line/ui.go:277-299 | the result is the bubbles of a newest-first ordering of all the works, cut into carousels of ten, with the carousel list reversed |
| UI.InsertCarousels | linebot/api/line/ui.go:278-294 | the loop closes a carousel whenever ten bubbles are pending and puts the remainder in a last one, which is exactly the chunking into runs of ten |
| UI.CloseCarousel | linebot/api/line/ui.go:285-288 | closing the pending run after a whole number of carousels extends the chunking of the prefix to the longer prefix |
| UI.NewestCarouselLast | linebot/api/line/ui.go:296-297 | after the reversal the last carousel sent holds the ten newest works, or all the works when there are fewer |
| Users.RefOf | linebot/api/db/users.go:40-51 | a skill string selects one of the three portfolio maps exactly when it is a known skill label, and the nil map otherwise |
| Users.Lookup | linebot/api/db/users.go:158 | indexing a Go map yields the stored work, or the zero Work for an absent date |
| Users.Store | linebot/api/db/users.go:143 | writing a work through a skill's handle changes that skill's map at that date only, and leaves the other two maps and every other field of the user alone |
| Users.GetSkillPortfolio | linebot/api/db/users.go:40-51 | the skill's map for the three skill labels, nil for any other string |
| Users.PortfolioExactlyForKnownSkills | linebot/api/db/users.go:40-51 | a skill has a portfolio exactly when SkillStrToEnum recognises its label |
| Users.WithThreadId | linebot/api/db/users.go:195-205 | only the named skill's conversation ID changes, and an unknown skill changes none |
| Users.UserStore.constructor | linebot/api/db/users.go:64-116 | the users collection holds the given documents; the documents whose requests fail are fixed |
| Users.UserStore.CreateUserData | linebot/api/db/users.go:64-94 | a nil folder or thread record panics before any write; otherwise the template (empty portfolios, the folder paths and thread IDs, the user's name and ID, right-handed) is written under the user's ID and returned, or an error is returned and nothing is written |
| Users.UserStore.GetUserData | linebot/api/db/users.go:96-108 | the stored user exactly when the document exists and can be read, an error otherwise |
| Users.UserStore.UpdateUserData | linebot/api/db/users.go:110-116 | the whole record is written under its own ID, or an error is returned and the collection is unchanged |
| Users.UserStore.UpdateUserHandedness | linebot/api/db/users.go:118-121 | the record's handedness is set, then the record is written |
| Users.UserStore.CreateUserPortfolioVideo | linebot/api/db/users.go:123-150 | through the nil handle it panics and writes nothing; otherwise a new work with the three placeholder notes, the uploaded paths and the grading is stored at the date, the session is written, and the user is written only when the session write succeeded |
| Users.UserStore.UpdateNote | linebot/api/db/users.go:152-231 | the one-note updates all store the rebuilt work at the date through the handle and write the user; the nil handle panics with nothing written |
| Users.UserStore.UpdateUserPortfolioReflection | linebot/api/db/users.go:152-172 | the work at the date (the zero Work when absent) gets the new reflection and keeps every other field, then the user is written |
| Users.UserStore.UpdateUserPortfolioPreviewNote | linebot/api/db/users.go:174-193 | the work at the date (the zero Work when absent) gets the new preview note and keeps every other field, then the user is written |
| Users.UserStore.UpdateUserPortfolioAINote | linebot/api/db/users.go:212-231 | the work at the date (the zero Work when absent) gets the new AI note and keeps every other field, then the user is written |
| Users.UserStore.UpdateUserGPTThreadID | linebot/api/db/users.go:195-205 | one skill's conversation ID is set, and an unknown skill still rewrites the document unchanged |
| Users.UserStore.UpdateUserGPTThreadIDs | linebot/api/db/users.go:207-210 | all three conversation IDs are replaced, then the record is written |
| Users.NoteUpdateFrame | linebot/api/db/users.go:152-172 | a one-note update changes that note of that work only: other dates read as before, and an existing date adds no key |
| Users.NoteUpdateAtAbsentDate | linebot/api/db/users.go:212-231 | a note update at an absent date inserts a work whose other fields are the zero values |
| UserUtils.GetUserPortfolio | linebot/app/user_utils.go:99-110 | a known skill yields a handle on that skill's own map, so what it reads is GetSkillPortfolio's map; any other skill yields the nil map |
| UserUtils.PortfolioHandleAliases | linebot/app/user_utils.go:99-110 | a write through the handle is what the user record then holds for that skill, and the other skills' maps are untouched |
| UserUtils.GetUserGPTConversation | linebot/app/user_utils.go:112-124 | each known skill reads its own conversation ID and any other skill reads "" |
| UserUtils.ThreadIdRoundTrip | linebot/app/user_utils.go:112-124 | the ID UpdateUserGPTThreadID sets for a skill is the one then read for it, and every other skill reads what it read before |
| UserUtils.CreateUser | linebot/app/user_utils.go:5-38 | the LINE name ("" when the profile fails), the bucket placeholder, then the user document; a failed folder creation or conversation creation panics at the nil dereference with no user written; otherwise the new user record is written and returned unless the write fails |
| UserUtils.CreateUserIfNotExist | linebot/app/user_utils.go:73-84 | a user that can be read is returned with nothing changed; otherwise the placeholder object is written, a panic follows when it is refused or no conversations can be created, and else the new user is written and returned (nil when that write fails) |
| UserUtils.CreateUserSessionIfNotExist | linebot/app/user_utils.go:86-97 | a stored session is returned with nothing changed; otherwise the default session is written and returned, or nil when that write fails too; users, replies and storage are untouched |
| Sessions.SessionStore.constructor | linebot/api/db/sessions.go:7-13 | the sessions collection holds the given documents; the documents whose requests fail are fixed |
| Sessions.SessionStore.GetUserSession | linebot/api/db/sessions.go:15-27 | the stored session exactly when the document exists and can be read, an error otherwise |
| Sessions.SessionStore.UpdateUserSession | linebot/api/db/sessions.go:29-35 | the whole record replaces the user's document, or an error is returned and nothing changes |
| Sessions.SessionStore.CreateUserSession | linebot/api/db/sessions.go:37-50 | the default session (no state, Empty step, empty skill, handedness and date) is written and returned, or the write's error is returned |
| Sessions.SessionStore.ResetSession | linebot/api/db/sessions.go:73-86 | the default session is written whatever was stored |
| Sessions.SessionStore.UpdateSessionUserState | linebot/api/db/sessions.go:52-61 | a read session gets the new state and step and keeps every other field; when the read fails nothing is written and the error is returned |
| Sessions.SessionStore.UpdateSessionUserSkill | linebot/api/db/sessions.go:63-71 | a read session gets the new skill and keeps every other field; a failed read writes nothing |
| Sessions.SessionStore.UpdateSessionActionStep | linebot/api/db/sessions.go:88-96 | a read session gets the new step and keeps every other field; a failed read writes nothing |
| Sessions.SessionStore.UpdateSessionUpdatingDate | linebot/api/db/sessions.go:98-106 | a read session gets the new date and keeps every other field; a failed read writes nothing |
| Sessions.SessionStore.UpdateSessionHandedness | linebot/api/db/sessions.go:108-116 | a read session gets the new handedness and keeps every other field; a failed read writes nothing |
| Storage.RootPath | linebot/api/storage/storage_client.go:49 | a user's root path is the user ID followed by one '/' |
| Storage.PlaceholderPath | linebot/api/storage/storage_client.go:51 | the placeholder object sits directly under the root path and is named ".folder_placeholder" |
| Storage.BucketClient.constructor | linebot/api/storage/storage_client.go:14-18 | the bucket client holds the bucket name and the objects it is given |
| Storage.BucketClient.Write | linebot/api/storage/storage_client.go:55-62 | a writer stores its data and content type at the object name, or fails and stores nothing |
| Storage.BucketClient.CreateUserFolders | linebot/api/storage/storage_client.go:48-69 | an empty placeholder is written under the user's root path and the folder record (ID, name, root path) is returned; a failed write stores nothing and returns an error |
| Storage.BucketClient.UploadVideo | linebot/api/storage/storage_client.go:87-108 | the blob is stored as video/mp4 at the bucket video path, whose name and path are returned; a failed write stores nothing |
| Storage.BucketClient.UploadThumbnail | linebot/api/storage/storage_client.go:110-140 | the local thumbnail's bytes are stored as image/jpeg at the bucket thumbnail path; a local file that cannot be read, or a failed write, stores nothing and returns an error |
| Storage.BucketClient.DeleteFile | linebot/api/storage/storage_client.go:142-150 | exactly the named object is removed, and a missing object is an error |
| Storage.PlaceholderPathsDistinct | linebot/api/storage/storage_client.go:48-51 | two different user IDs without '/' never share a placeholder object |
| VideoUtils.GetVideoFolder | linebot/app/video_utils.go:30-41 | each known skill reads its own folder path and any other skill reads "" |
| VideoUtils.ComparisonDistinctFromVideo | linebot/app/video_utils.go:309 | the comparison video's object path, built here, never equals the path line 67 builds for the video of the same name |
| VideoUtils.ObjectURLIsAssetURL | linebot/app/video_utils.go:90-92 | the URL stored for a bucket path with no scheme and no leading '/' is the one assetURL builds when the work is shown |
| VideoUtils.FirstSuccess | linebot/app/video_utils.go:185-203 | the index of the first successful attempt, every earlier attempt having failed, or the bound when none succeeds |
| VideoUtils.AnalyzeVideo | linebot/app/video_utils.go:172-216 | at most six attempts, stopping at the first success; the result is that attempt's response, with one delay per earlier failure; after six failures the last error is returned after six delays |
| VideoUtils.Stitch | linebot/app/video_utils.go:255-303 | a video text that is not base64 gives two empty paths; otherwise the raw path is returned, and the stitched path exactly when ffmpeg finds the expert clip for the handedness and skill |
| VideoUtils.CreateVideoThumbnail | linebot/app/video_utils.go:218-253 | the thumbnail path is the user's tmp jpeg exactly when ffmpeg extracts a frame, an error otherwise |
| VideoUtils.UploadVideoToBucket | linebot/app/video_utils.go:43-82 | the video goes to folder+name.mp4 under the session's skill, then the thumbnail to thumbnail-folder/name.jpeg; a failed video upload stores nothing and skips the thumbnail, and a failed thumbnail leaves the video stored |
| VideoUtils.UploadComparisonVideoToBucket | linebot/app/video_utils.go:306-318 | the stitched video is stored at folder+name_comparison.mp4 under the session's skill, or nothing is stored and an error is returned |
| VideoUtils.UpdateUserPortfolioVideo | linebot/app/video_utils.go:84-108 | the new work, holding the bucket URLs of the uploads and the placeholder notes, goes into the session's skill; the session is written, then the user; an unknown skill panics at the nil map with nothing written |
| VideoUtils.SendVideoUploadedReply | linebot/app/video_utils.go:110-124 | an unknown session skill panics and sends nothing; an empty portfolio is the no-portfolio error with nothing sent; otherwise the carousels of the skill's works, with buttons, go out behind the upload text, and a refused reply is the reply error followed by one default error |
| LegacyVideo.LoopEnd | app/video_utils.go:180-200 | the attempt on which the retry loop ends, never past the sixth: the first attempt that is accepted, that fails without a retryable status, or the sixth retryable one |
| LegacyVideo.LoopEndSkips | app/video_utils.go:180-200 | after i retryable attempts the loop ends where it would have ended starting from attempt i |
| LegacyVideo.AnalyzeVideo | app/video_utils.go:158-221 | an unreadable resized file is an error before any request; a handedness with no label panics; otherwise the loop ends on LoopEnd's attempt with one delay per retryable attempt, a transport error is returned as is, and only a 200 with a JSON body is a result |
| LegacyVideo.PlainServerErrorNotRetried | app/video_utils.go:190-211 | a 500 that arrives without a transport error ends the loop at once and is reported as an unexpected status |
| LegacyVideo.AlwaysBadGateway | app/video_utils.go:180-211 | a server that answers 502 every time is tried six times and the result is an error |
| LegacyVideo.TransportErrorReturnsAtOnce | app/video_utils.go:197-198 | a transport error with no response ends the loop on that attempt with that error |
| LineBot.Client.NewBotClient | linebot/api/line/line_client.go:10-24 | the client keeps the configured bucket name and has sent nothing yet |
| LineBot.Client.Send | api/line/text_message_utils.go:87-96 | one ReplyMessage call: exactly one reply is attempted, and it fails exactly when LINE refuses it |
| LineBot.Client.SendReplyAsWritten | api/line/text_message_utils.go:12-15 | SendReply as written sends one text and always reports an error, even when LINE accepts the reply |
| LineBot.Client.SendReply | api/line/text_message_utils.go:12-15 | the corrected SendReply sends one text and reports an error exactly when LINE refuses it |
| LineBot.Client.SendDefaultReply | api/line/text_message_utils.go:17-19 | one "請點選選單的項目" text |
| LineBot.Client.SendDefaultErrorReply | api/line/text_message_utils.go:21-23 | one "發生錯誤，請重新操作" text |
| LineBot.Client.SendWelcomeReply | api/line/text_message_utils.go:25-32 | a user whose profile cannot be read gets nothing and an error; otherwise one welcome text that carries the display name, reported as an error exactly when LINE refuses it |
| LineBot.Client.SendWelcomeReplyAsWritten | api/line/text_message_utils.go:25-32 | as written, the welcome is sent as before but an error is reported every time |
| LineBot.Client.SendInstruction | api/line/text_message_utils.go:106-119 | one text holding the ten-part instructions |
| LineBot.Client.PromptSkillSelection | api/line/text_message_utils.go:144-153 | one prompt whose skill quick replies carry the given state |
| LineBot.Client.PromptHandednessSelection | api/line/text_message_utils.go:155-161 | one "請選擇左手或右手" prompt |
| LineBot.Client.PromptUploadVideo | api/line/video_message_utils.go:9-29 | one "請上傳影片" prompt with the camera and camera-roll quick replies |
| LineBot.Client.SendGPTChattingModeReply | api/line/text_message_utils.go:34-57 | one text with the quick reply that posts the stop payload |
| LineBot.Client.SendVideoMessage | api/line/text_message_utils.go:163-170 | one video message whose video link is the Drive download URL for the video ID and whose preview link is the Drive user-content URL for the thumbnail ID |
| LineBot.Client.SendNoPortfolioReply | api/line/text_message_utils.go:73-84 | one text naming the skill in Chinese as having no portfolio yet |
| LineBot.Client.SendExpertVideos | api/line/text_message_utils.go:276-300 | a handedness or skill with no Chinese label panics before anything is sent; otherwise one reply with the heading and the configured links of that handedness and skill |
| LineBot.Client.GetVideoContent | api/line/video_message_utils.go:31-44 | the message's bytes exactly when LINE has content for it, an error otherwise |
| LineBot.Client.SendPortfolio | api/line/text_message_utils.go:181-218 | a skill with no label panics with nothing sent; an empty portfolio is the no-portfolio error with nothing sent; otherwise one reply with the text and the portfolio carousels, and a refused reply is followed by the default error reply and reported |
| LineBot.ReplyErrorAsWritten | api/line/text_message_utils.go:14 | wrapping with `%w` yields an error whether or not the SDK returned one, carrying the SDK's error when there is one |
| LineBot.ReplyError | api/line/text_message_utils.go:80-95 | the corrected wrap: an error exactly when the SDK returns one, carrying its text |
| LineBot.SendReplyAsWrittenDiffers | api/line/text_message_utils.go:12-15 | an accepted reply is an error as written and no error once corrected; the two agree on every refused reply |
| Postback.GetFieldNames | api/line/postback_utils.go:13-24 | the loop over the struct's fields collects exactly its non-empty json tags |
| Postback.Build | api/line/postback_utils.go:49-58 | the struct unmarshal and validation only ever yield a payload of the requested kind |
| Postback.Decode | api/line/postback_utils.go:27-61 | text that is not a JSON object is rejected before anything else, and an accepted payload is of the requested kind |
| Postback.HandlePostbackData | api/line/postback_utils.go:27-81 | the key loop, the count check, the unmarshal and the validation together compute Decode for each of the Handle*PostbackData wrappers |
| Postback.SubsetOfSameSize | api/line/postback_utils.go:40-47 | a key set inside the tag set with as many members is the tag set |
| Postback.SubsetCard | api/line/postback_utils.go:40-47 | a subset has no more members than its superset |
| Postback.DecodeAcceptsExactly | api/line/postback_utils.go:27-61 | a payload is accepted exactly when the input is an object whose key set equals the struct's tag set and every field holds a non-empty string or true; the payload is then of that kind |
| Postback.BuildOk | linebot/api/line/postback_data.go:8-37 | the struct builds exactly when every field is filled: filled values always have the field's type, so the type check never rejects what validation accepts |
| Postback.UnexpectedKeyRejected | api/line/postback_utils.go:40-44 | any key outside the tag set rejects the payload whatever else it holds |
| Postback.StopPayloadIsTrue | linebot/api/line/postback_data.go:35-37 | a decoded stop payload always has stop set, since false fails `required` |
| Postback.TagsOfMembers | api/line/postback_utils.go:17-22 | a tag is collected exactly when it is non-empty and some field carries it |
| Postback.TagSetIsTags | linebot/api/line/postback_data.go:8-37 | the collected tag set of each struct is the set of its declared json tags |
| Postback.TagSetsDistinct | linebot/api/line/postback_data.go:8-37 | no two of the six structs have the same tag set |
| Postback.AtMostOneKind | api/line/postback_utils.go:27-61 | one raw payload decodes as at most one kind of struct |
| Postback.PayloadKind | linebot/api/line/postback_data.go:39-45 | each payload value belongs to the struct kind it was built as |
| Postback.Encode | linebot/api/line/ui.go:49-106 | json.Marshal of a button's payload is an object with one key per json tag of its struct |
| Postback.EncodeDecode | linebot/api/line/ui.go:49-106 | a button payload decodes back to itself exactly when all its fields are filled, and is otherwise rejected as missing a required field |
| Postback.BuildEncoded | api/line/postback_utils.go:49-58 | building from an encoded payload gives the payload back when complete, and the required-field error otherwise |
| PostbackHandlers.DecodePostback | linebot/app/postback_handlers.go:427-457 | each is*/get* helper decodes the raw postback data as the requested payload kind, with the same accept/reject verdict as the generic decoder |
| PostbackHandlers.Classify | linebot/app/postback_handlers.go:35-64 | a postback is routed to stop, note edit, play video or ask AI exactly when that payload decodes (a stop payload only when its flag is true), tried in that order, and otherwise to the state switch |
| PostbackHandlers.ClassifyExclusive | linebot/app/postback_handlers.go:39-64 | at most one of the four intercepted payload kinds decodes from any one document, so the order of the checks never decides the route |
| PostbackHandlers.HandleInvalidActionStep | linebot/app/postback_handlers.go:617-622 | an unexpected step resets the session and answers with exactly one default error |
| PostbackHandlers.ResetSessionWithErrorHandling | linebot/app/postback_handlers.go:625-629 | the session is reset; the default error is sent only when the reset fails |
| PostbackHandlers.GenerateUpdateNoteMessage | linebot/app/postback_handlers.go:546-555 | no message for an unknown skill; otherwise the prompt names the skill, the work date and the preview-note or reflection heading that matches the step |
| PostbackHandlers.ForceStateToWritingNotes | linebot/app/postback_handlers.go:244-264 | an unknown step resets the session silently; otherwise the session is written with the payload's step, date and skill in WritingNotes, a failed write is answered with one default error, an unknown skill panics after the write, and otherwise the note prompt for that date, skill and step is the only reply; users and bucket are untouched |
| PostbackHandlers.HandleSelectingPortfolio | linebot/app/postback_handlers.go:267-286 | a payload that does not decode or names an unknown step gets one default error and no write; otherwise the step and work date are written, with a default error when the write fails; nothing else changes |
| PostbackHandlers.HandleSelectingSkill | linebot/app/postback_handlers.go:563-585 | a bad payload gets one default error; the handedness prompt is sent before the write, and a refused prompt gets one default error before the session is touched; otherwise the chosen skill is written, with a default error when that fails; nothing else changes |
| PostbackHandlers.HandleSendingExpertVideos | linebot/app/postback_handlers.go:589-610 | a non-postback panics and sends nothing; a bad payload or unknown handedness gets one default error; otherwise the expert clips for the handedness and the session's skill are sent (a panic exactly for an unknown skill), followed by a default error only when they were refused |
| PostbackHandlers.HandleUpdatingNote | linebot/app/postback_handlers.go:289-330 | a step other than the two note steps goes to the invalid-step path; a non-text message only resets; a text becomes the preview note or the reflection of the work at the session's date, changing nothing else in the user record, panics with nothing changed exactly for an unknown skill, and is followed by the updated portfolio, whose refusal adds one default error |
| PostbackHandlers.HandleWritingNotes | linebot/app/postback_handlers.go:88-129 | the skill step writes SelectingPortfolio with the chosen skill and then shows that skill's portfolio with buttons (the no-portfolio text when it is empty, two default errors after a refused reply, a panic for an unknown skill); the portfolio step is the portfolio selection; the note steps store the note, show the updated portfolio and reset; any other step resets with one default error |
| PostbackHandlers.ChatText | linebot/app/postback_handlers.go:149-153 | the text sent to GPT is the message's text, or empty for an event without one |
| PostbackHandlers.HandleChattingWithGPT | linebot/app/postback_handlers.go:132-172 | the skill step writes Chatting with the chosen skill and sends the chat-mode confirmation whatever the write did; in chat mode GPT's answer on the skill's conversation is sent back, or one default error when GPT fails, and the session is untouched; users and bucket never change |
| PostbackHandlers.HandleViewingExpertVideos | linebot/app/postback_handlers.go:175-188 | the skill step is skill selection towards the handedness step; the handedness step sends the expert clips of the chosen handedness and the session's skill (a refusal adding one default error, a bad handedness giving one default error) and then resets whether or not they were delivered; a non-postback or an unknown skill panics with nothing changed; any other step resets with one default error |
| PostbackHandlers.HandleViewingPortfolio | linebot/app/postback_handlers.go:191-212 | a bad payload gets one default error; otherwise the chosen skill's portfolio is shown as ShowPortfolio states |
| PostbackHandlers.ShowPortfolio | linebot/app/postback_handlers.go:199-211 | an unknown skill panics and changes nothing; an empty portfolio gets the no-portfolio text; otherwise the carousels of the skill's works go out, and the session is reset (and the portfolio counted as viewed) exactly when that reply is accepted, a refused one getting two default errors instead |
| PostbackHandlers.UploadVideoContent | linebot/app/postback_handlers.go:499-543 | a missing stitched file or a refused video upload gets one default error and changes nothing else; a missing or refused thumbnail keeps the stored video; an unknown skill panics after both uploads; a failed session or user write gets one default error; otherwise the work stamped with the current minute is in the user's portfolio, the portfolio reply goes out, and the upload succeeds exactly when that reply is accepted, which alone resets the session |
| PostbackHandlers.HandleUploadingVideo | linebot/app/postback_handlers.go:374-402 | a message that is not a video resets with one default error; missing content, an analysis that never succeeds or a failed thumbnail gets one default error and changes nothing else; otherwise the first successful analysis is stitched and uploaded with UploadVideoContent's whole effect |
| PostbackHandlers.HandleAnalyzingVideoActions | linebot/app/postback_handlers.go:215-237 | the skill step is skill selection towards the handedness step; the handedness step writes only the handedness into the stored session (nothing when it cannot be read) and sends the upload prompt; the upload step is the video upload with its whole effect; other steps reset with one default error |
| PostbackHandlers.AnalyzeWithGPT | linebot/app/postback_handlers.go:463-480 | the advice is GPT's answer to the prompt built from handedness, skill and grading details, or the fixed fallback text when GPT fails |
| PostbackHandlers.HandleAnalyzePortfolioWithGPT | linebot/app/postback_handlers.go:333-371 | grading details that do not marshal get the "cannot read the movement data" text; otherwise an unknown skill panics at the AI-note write and changes nothing; a failed write gets the AI-note failure text; otherwise the work's AI note becomes GPT's advice and the updated portfolio is shown, whose refusal adds two default errors, or, without a session record, the note is stored and the call that shows it panics; sessions and storage are untouched |
| PostbackHandlers.RouteByState | linebot/app/postback_handlers.go:66-80 | each of the five states has its handler's whole effect (notes, chat, expert clips, portfolio, video analysis); any other state resets the session with one default error |
| PostbackHandlers.HandleInterceptedPostback | linebot/app/postback_handlers.go:39-64 | the route taken is Classify's; the stop payload resets and sends the chat-ended text, the note-edit payload has forceStateToWritingNotes' effect, the play-video payload sends that video, the ask-AI payload has the analysis' effect; a postback for the state switch changes nothing here |
| PostbackHandlers.InterceptStop | linebot/app/postback_handlers.go:39-46 | the stop payload with a true flag resets the session and sends the chat-ended text; otherwise nothing changes |
| PostbackHandlers.InterceptNote | linebot/app/postback_handlers.go:48-52 | the note-edit payload has forceStateToWritingNotes' whole effect; any other payload has the effect of the later checks |
| PostbackHandlers.InterceptVideoOrAsk | linebot/app/postback_handlers.go:54-58 | the play-video payload sends exactly that video and nothing else changes; any other payload has the effect of the ask-AI check |
| PostbackHandlers.InterceptAsk | linebot/app/postback_handlers.go:60-64 | the ask-AI payload has the whole effect of the portfolio analysis; anything else leaves all state alone |
| PostbackHandlers.HandleUserState | linebot/app/postback_handlers.go:35-81 | the four intercepted payloads are handled first with their whole effects; any other postback has the state switch's effect, each state's handler in full |
| PostbackHandlers.RouteByStateWithoutUser | linebot/app/postback_handlers.go:65-237 | the state switch with a nil user: an undecodable payload gets its one default error; a skill choice in the expert-video or video-analysis state goes through whole, writing under the event's user ID; the expert videos' handedness step sends the clips and then panics; chat with an unknown skill asks GPT on the empty conversation and sends the answer or one default error; every other step panics without a change |
| PostbackHandlers.AnalyzeWithoutUser | linebot/app/postback_handlers.go:333-345 | the ask-AI request with a nil user: a known skill panics without a change; for an unknown skill the zero Work's details are marshalled, a failure gets the "cannot read the movement data" text, and otherwise the AI-note write panics |
| PostbackHandlers.HandleUserStateWithMissingRecord | linebot/app/postback_handlers.go:35-81 | handleUserState with a nil user or session: the play-video payload is sent; the stop payload resets and says the chat has ended when there is a user; a note-edit payload with an unknown step resets when there is a user; the ask-AI request and, with a session, the state switch have their own effects; every other path panics without a change |
| PostbackHandlers.HandlePostbackEvent | linebot/app/postback_handlers.go:23-31 | the two menu-switch postbacks change nothing; any other postback has exactly the effect handleUserState gives it, with both records or with a missing one, which panics only at its first use |
| Stats.ExtremesSpec | linebot/api/db/stats.go:37-46 | the running minimum and maximum are grades of the list, and every grade lies between them |
| Stats.StatsOfSpec | linebot/api/db/stats.go:32-58 | both extremes are grades of the list and bound it; the average is the sum over the count and lies between the extremes |
| Stats.MeanBetween | linebot/api/db/stats.go:49 | the mean of grades that all lie in an interval lies in it |
| Stats.VarianceSpec | linebot/api/db/stats.go:50-56 | the variance under the square root is the mean squared deviation from the average (the population form) and is never negative |
| Stats.SumBounds | linebot/api/db/stats.go:39-47 | the running sum of grades in an interval lies between the count times either end |
| Stats.SumNonNegative | linebot/api/db/stats.go:51-55 | the sum of squared deviations is never negative |
| Stats.ComputeStats | linebot/api/db/stats.go:32-58 | an empty list is the only error; otherwise the two loops compute exactly the statistics of the list |
| Stats.SquaredDeviations | linebot/api/db/stats.go:51-55 | the second loop sums the squared deviations from the average |
| Stats.ComputeDateStats | linebot/api/db/stats.go:20-30 | succeeds exactly when every date's list is non-empty, and then gives every date, and only those, the statistics of its list |
| Stats.GroupIsGradesOn | linebot/api/db/stats.go:71-86 | after the bucketing loop a day has a bucket exactly when some work falls on it, and the bucket holds that day's grades in visiting order |
| Stats.NoEntryNoGrades | linebot/api/db/stats.go:82-85 | a day no work falls on collects no grade |
| Stats.ExtendConcat | linebot/api/db/stats.go:72-86 | bucketing two runs of works one after the other is bucketing their concatenation |
| Stats.StatsByDateSpec | linebot/api/db/stats.go:71-87 | any unparseable work key makes the whole result an error; otherwise exactly the days some work falls on get statistics, those of that day's grades |
| Stats.NoWorksNoStats | linebot/api/db/stats.go:71-87 | an empty portfolio gives empty statistics and no error |
| Stats.SumConcat | linebot/api/db/stats.go:39-55 | both summing loops split over a concatenation |
| Stats.GradesOnConcat | linebot/api/db/stats.go:82-85 | a day's grades split over a concatenation of works |
| Stats.SumPerm | linebot/api/db/stats.go:39-55 | the sums do not depend on the order of the grades |
| Stats.StatsPerm | linebot/api/db/stats.go:32-58 | the statistics depend only on the multiset of grades |
| Stats.ExtremesPerm | linebot/api/db/stats.go:37-46 | the running extremes do not depend on the order of the grades |
| Stats.GradesOnPerm | linebot/api/db/stats.go:82-85 | reordering the works permutes each day's grades |
| Stats.AllParsePerm | linebot/api/db/stats.go:74-79 | whether every key parses does not depend on the order of the works |
| Stats.StatsByDateOrderIndependent | linebot/api/db/stats.go:71-87 | the result does not depend on the order in which the works are visited |
| Stats.Entries | linebot/api/db/stats.go:72 | one entry per visited key |
| Stats.EntriesAt | linebot/api/db/stats.go:72-85 | the i-th entry is the work under the i-th visited key, with its day and total grade |
| Stats.EnumerationsPermute | linebot/api/db/stats.go:72 | two visiting orders of one portfolio see the same works |
| Stats.EntriesDistinct | linebot/api/db/stats.go:72 | distinct keys give distinct entries |
| Stats.EntriesCover | linebot/api/db/stats.go:72 | every work one order visits, another order of the same keys visits too |
| Stats.PortfolioOrderIndependent | linebot/api/db/stats.go:61-88 | the statistics of a portfolio do not depend on the order in which the map's range visits it |
| Stats.GetUserSkillStats | linebot/api/db/stats.go:61-88 | a user that cannot be read is an error, an unknown skill is the invalid-portfolio error, and otherwise the result is the statistics by date of that skill's works |
| Stats.ResultIsStatsByDate | linebot/api/db/stats.go:87 | computeDateStats of the collected buckets is the statistics by date of the works bucketed |
| Stats.AddWorks | linebot/api/db/stats.go:72-86 | the inner loop fails exactly when some visited key does not parse, and otherwise extends the buckets with every visited work in order |
| Stats.ExtendStep | linebot/api/db/stats.go:82-85 | one step appends the work's grade to the end of its day's bucket |
| Stats.GetClassSkillStats | linebot/api/db/stats.go:91-125 | the result is the statistics by date of the works of every scanned user that decodes and has the skill's portfolio |
| Stats.AddUser | linebot/api/db/stats.go:100-122 | a document that does not decode or lacks the skill's portfolio adds nothing; otherwise its works are bucketed, failing exactly when one of its keys does not parse |
| Stats.ClassStep | linebot/api/db/stats.go:95-123 | the works of the first i + 1 scanned users are those of the first i followed by those of the next |
| Stats.PrefixFailure | linebot/api/db/stats.go:113-115 | a key that fails to parse in an early user makes the whole scan an error |
| TimeKeys.ParseKey | linebot/api/db/stats.go:74-76 | a parsed key is 15 or 16 characters long and its fields are in range, the day within its month's length |
| TimeKeys.RankIsChronological | linebot/api/line/ui.go:265-267 | comparing the minute counts of two in-range stamps is time.After, field by field |
| TimeKeys.Digit | linebot/api/line/ui.go:267 | in a positional system the higher part decides a comparison, and equal values have equal digits |
| TimeKeys.MixedRadix | linebot/api/line/ui.go:267 | the leading digit decides a comparison when it differs |
| TimeKeys.DatePart | linebot/api/db/stats.go:74-81 | a key has a "2006-01-02" date exactly when it parses, and the date is its first ten characters |
| TimeKeys.SampleKey | linebot/api/db/stats.go:74-76 | a key written in the bot's layout parses to its fields |
| TimeKeys.SampleKeyNotLeap | linebot/api/db/stats.go:74-76 | 29 February outside a leap year does not parse |
| TimeKeys.SampleKeyShortHour | linebot/api/db/stats.go:74-76 | the hour may take a single digit |
| TimeKeys.SampleKeyGarbage | linebot/api/db/stats.go:77-79 | text that is no timestamp has no date |
| ChatHistory.Loaded | linebot/api/db/chat_history.go:33-48 | the transaction starts from the stored history when it decodes, and from an empty history for the user when the document is missing or does not decode |
| ChatHistory.WithExchange | linebot/api/db/chat_history.go:50-54 | the old messages stay an unchanged prefix and exactly two follow: the user's text, then the assistant's, with the same skill, conversation and timestamp |
| ChatHistory.Read | linebot/api/db/chat_history.go:61-77 | a read is an error exactly when the request fails or the document does not decode; a missing document reads as an empty history |
| ChatHistory.ReadAfterAppend | linebot/api/db/chat_history.go:28-77 | after an append a read succeeds and returns the previously readable messages followed by the new exchange; a history that did not decode is replaced by the exchange alone |
| ChatHistory.ChatHistoryStore.constructor | linebot/api/db/chat_history.go:30 | the collection starts with the given documents |
| ChatHistory.ChatHistoryStore.AppendChatExchange | linebot/api/db/chat_history.go:28-58 | a failed request writes nothing and is returned; otherwise the user's document becomes the loaded history with the exchange appended, and no other document changes |
| ChatHistory.ChatHistoryStore.GetChatHistory | linebot/api/db/chat_history.go:61-77 | returns what Read says of the current documents |
| DailySummary.DocId | linebot/api/db/daily_summary.go:20-22 | the key is the user ID, '_', the date, '_', the skill, each at its own position |
| DailySummary.DocIdInjective | linebot/api/db/daily_summary.go:20-22 | with a user ID and a date free of '_' the key determines the triple, so distinct triples never share a cache entry |
| DailySummary.FirstUnderscore | linebot/api/db/daily_summary.go:21 | in a joined key the first '_' closes the first part |
| DailySummary.DocIdCollision | linebot/api/db/daily_summary.go:21 | without that condition two different triples can share a key |
| DailySummary.Cached | linebot/api/db/daily_summary.go:25-41 | a read is an error exactly when the request fails or the entry does not decode, nothing exactly when the entry is missing, and otherwise the stored entry |
| DailySummary.SummaryStore.constructor | linebot/api/db/daily_summary.go:28 | the collection starts with the given documents |
| DailySummary.SummaryStore.GetDailySummary | linebot/api/db/daily_summary.go:25-41 | reads the entry under the triple's key as Cached says |
| DailySummary.SummaryStore.SetDailySummary | linebot/api/db/daily_summary.go:44-59 | fails exactly when the request fails, writing nothing; otherwise overwrites the whole entry, a later read of the triple returns exactly it, and no other triple's entry changes |
| ChatApi.TrimLeft | linebot/main.go:49 | strips exactly the leading white space: what is dropped is all space, and what is kept is a suffix that does not start with space |
| ChatApi.TrimRight | linebot/main.go:49 | strips exactly the trailing white space: what is dropped is all space, and what is kept is a prefix that does not end with space |
| ChatApi.TrimSpaceEnds | linebot/main.go:49 | the trimmed text neither starts nor ends with white space |
| ChatApi.BlankIffAllSpace | linebot/main.go:81 | a field is blank after trimming exactly when it is white space only |
| ChatApi.TrimSpaceIdempotent | linebot/main.go:49 | trimming twice changes nothing |
| ChatApi.ToLowerSpec | linebot/main.go:49 | lower-casing keeps the length, leaves no capital and leaves every other character in place |
| ChatApi.ToLowerIdempotent | linebot/main.go:61 | lower-casing twice changes nothing |
| ChatApi.NormalizedNonBlank | linebot/main.go:97-107 | a skill that passed the non-blank check stays non-empty once normalised, so the branch counting every message is never taken |
| ChatApi.FilteredSpec | linebot/main.go:58-64 | every kept message has the requested skill and comes from the history, and every message of that skill is kept |
| ChatApi.FilteredConcat | linebot/main.go:60-64 | filtering distributes over concatenation, so kept messages stay in history order |
| ChatApi.FilterBySkill | linebot/main.go:58-64 | the loop keeps exactly the messages the filter keeps, in order |
| ChatApi.CountBySkill | linebot/main.go:101-107 | the count is the number of messages the history filter would keep for the skill |
| ChatApi.GetHistory | linebot/main.go:41-71 | a missing user_id is a 400; a failed history read is a 500; otherwise the whole history, or with a non-blank skill exactly that skill's messages |
| ChatApi.Summarize | linebot/main.go:78-133 | an invalid body is a 400 and a failed history read a 500, neither calling the summarizer nor writing the cache; otherwise the cache and summarizer behave as SummarizedAs says |
| ChatApi.SummarizeMessages | linebot/main.go:97-132 | a cached summary for today with the present message count that is not blank is served without the summarizer; otherwise a summarizer failure is a 502 that writes nothing, and a fresh summary is stored with the count (unless the store fails) and returned uncached |
| ChatApi.RepeatedRequestHits | linebot/main.go:110-127 | after a non-blank summary is stored, the same request on the same day with no new messages of the skill is served from the cache |
| ChatApi.NewMessageMisses | linebot/main.go:111 | one more message of the skill makes the stored count stale, so the next request misses the cache |
| ChatApi.GetUser | linebot/main.go:136-153 | a missing user_id is a 400, a user that cannot be read a 404, and otherwise the stored user record |
| ChatApi.Answer | linebot/main.go:176-183 | a statistics error is a 400 carrying the error's text; otherwise a 200 with the statistics |
| ChatApi.GetUserStats | linebot/main.go:168-184 | a missing id or blank skill is a 400; otherwise the user's statistics by date for the normalised skill, or its error as a 400 |
| ChatApi.GetClassStats | linebot/main.go:186-201 | a blank skill is a 400; otherwise the class statistics for the normalised skill, or its error as a 400 |
| ClassPage.DayOf | liff/app/class/page.tsx:43 | the day of a key is its first ten characters, or the whole key when it is shorter |
| ClassPage.Max | liff/app/class/page.tsx:47 | the larger of the two numbers |
| ClassPage.DailyMaxSpec | liff/app/class/page.tsx:41-48 | a day gets a value exactly when some key falls on it, and the value is at least every grade of that day, never below 0, and either 0 or one of those grades |
| ClassPage.DailyMaxIsBest | liff/app/class/page.tsx:41-48 | with non-negative grades the value of a day is that day's best grade |
| ClassPage.DailyMaxUnique | liff/app/class/page.tsx:41-48 | two values that both meet that description for the same keys are equal |
| ClassPage.DailyMaxOrderIndependent | liff/app/class/page.tsx:38-48 | the Object.keys order of a portfolio does not change its daily maxima |
| ClassPage.DailyMax | liff/app/class/page.tsx:41-48 | the forEach over the keys leaves exactly the daily maxima of the portfolio |
| ClassPage.Maxima | liff/app/class/page.tsx:53-64 | one map of daily bests per user, in Object.values order |
| ClassPage.CountSpec | liff/app/class/page.tsx:67-71 | a day's user count is positive exactly when some user has a best on it, never exceeds the number of users, and a day no user worked has total 0 |
| ClassPage.AccSpec | liff/app/class/page.tsx:51-75 | the accumulator holds a day exactly when some user worked on it, with the total and the count of the users' bests on that day |
| ClassPage.AccCounted | liff/app/class/page.tsx:79 | every tally has a positive count, so the division by it is defined |
| ClassPage.AddUserMaxima | liff/app/class/page.tsx:67-71 | the inner forEach adds each of the user's daily bests to its day's tally, starting new days at zero, whatever the order of the days |
| ClassPage.AddDone | liff/app/class/page.tsx:67-71 | once every day of the user has been visited the accumulator is the one-user update |
| ClassPage.AddStep | liff/app/class/page.tsx:68-70 | visiting one more day keeps the partial-update invariant |
| ClassPage.Accumulate | liff/app/class/page.tsx:50-75 | the reduce leaves exactly the tallies of every user's daily bests |
| ClassPage.RowsOf | liff/app/class/page.tsx:77-81 | one chart row per day given |
| ClassPage.RowsOfSpec | liff/app/class/page.tsx:77-81 | row i is for the i-th day, with total/count of that day as the class value and the viewer's best as the personal value |
| ClassPage.SortedIn | liff/app/class/page.tsx:82 | sorting the days keeps exactly the same days |
| ClassPage.RowsDates | liff/app/class/page.tsx:77-82 | the rows fail exactly when a class day has no personal best; otherwise there is one row per class day, in strictly increasing date order |
| ClassPage.RowsOfDates | liff/app/class/page.tsx:77-82 | the rows follow the days given: in the same order, only class days, and every day has one |
| ClassPage.RowsValues | liff/app/class/page.tsx:77-81 | each row holds total/count of its day and the viewer's best of that day |
| ClassPage.RowsOrderIndependent | liff/app/class/page.tsx:50-82 | the Object.entries order of the accumulator does not change the rows |
| ClassPage.Listing | liff/app/class/page.tsx:50 | Object.entries lists every key of the accumulator exactly once |
| ClassPage.ClassAndPersonalAverage | liff/app/class/page.tsx:36-83 | the result is the rows of the accumulated class tallies and the viewer's daily maxima |
| ClassPage.RowMeaning | liff/app/class/page.tsx:36-83 | a row's class value is the mean of the bests of the users who worked that day, at least one of whom did, and its personal value is the viewer's best of that day |
| ClassChart.ChartDataDates | liff/src/app/class/page.tsx:76-89 | the chart shows min(6, n) of the n base dates, in strictly increasing order, and only base dates |
| ClassChart.ChartDataLatest | liff/src/app/class/page.tsx:79-80 | the dates shown are the latest: every base date left out comes before every date shown |
| ClassChart.RowDates | liff/src/app/class/page.tsx:81-82 | row i is drawn for the i-th date of the window |
| ClassChart.WindowDates | liff/src/app/class/page.tsx:80 | slice(-6) of the sorted keys holds min(6, n) of them, increasing |
| ClassChart.WindowLatest | liff/src/app/class/page.tsx:80 | a key outside the window sorts before every key in it |
| ClassChart.LatestOfAscending | liff/src/app/class/page.tsx:80 | the window of an increasing list is its increasing tail, above everything it drops |
| ClassChart.ChartDataAverages | liff/src/app/class/page.tsx:83-88 | each row carries a class or personal average exactly where those statistics loaded and have the date, and then it is that date's average |
| ClassChart.ChartDataOrderIndependent | liff/src/app/class/page.tsx:76-80 | the Object.keys order of the statistics does not change the chart |
| ClassChart.EmptyClassHidesPersonal | liff/src/app/class/page.tsx:76-78 | class statistics that loaded empty are still chosen as the timeline, so the viewer's own dates are not shown |
| DateOrder.LessIrreflexive | liff/src/app/class/page.tsx:80 | no date sorts before itself |
| DateOrder.LessTransitive | liff/src/app/class/page.tsx:80 | the sort order is transitive |
| DateOrder.LessTotal | liff/app/class/page.tsx:82 | two different dates are ordered one way or the other |
| DateOrder.Insert | liff/src/app/class/page.tsx:80 | inserting a new date into an increasing list keeps it increasing and adds exactly that date |
| DateOrder.ConsAscending | liff/src/app/class/page.tsx:80 | a head below the first element keeps an increasing list increasing |
| DateOrder.Sort | liff/src/app/class/page.tsx:80 | sorting distinct dates yields an increasing permutation of them |
| DateOrder.AscendingUnique | liff/app/class/page.tsx:82 | an increasing list is determined by its elements, so any correct sort gives the same result |
| DateOrder.TailAscending | liff/src/app/class/page.tsx:80 | the tail of an increasing list is increasing and holds all but the head |
| DateOrder.SameHead | liff/src/app/class/page.tsx:80 | two increasing lists with the same elements start with the same, least, one |
| DateOrder.SortOrderIndependent | liff/app/class/page.tsx:82 | sorting gives the same list whatever order the dates come in |
| DateOrder.ListingsAgree | liff/src/app/class/page.tsx:76 | two Object.keys listings of one set have the same elements |
| DateOrder.DistinctCounts | liff/src/app/class/page.tsx:76 | a listing without repeats holds each element once |
| DateOrder.ListsSize | liff/src/app/class/page.tsx:76 | a listing has as many entries as the set has elements |
| SnakeCase.UpperRun | linebot/scripts/firestore_migrate_snake_case.py:89 | the greedy group of capitals: its length, all capitals, and no capital right after it |
| SnakeCase.AcronymStepLength | linebot/scripts/firestore_migrate_snake_case.py:89 | each step of the left-to-right scan moves forward by at least one character and stays within the text |
| SnakeCase.Dashes | linebot/scripts/firestore_migrate_snake_case.py:90 | every '-' becomes '_' and every other character stays where it was |
| SnakeCase.ToSnakeCaseShape | linebot/scripts/firestore_migrate_snake_case.py:75-90 | the result has no capital and no '-' |
| SnakeCase.ToSnakeCaseKeeps | linebot/scripts/firestore_migrate_snake_case.py:75-90 | a name without capitals or dashes comes back unchanged |
| SnakeCase.LowerUpperConcat | linebot/scripts/firestore_migrate_snake_case.py:87 | the first substitution works piece by piece wherever no lower-case letter or digit meets a capital at the seam |
| SnakeCase.LowerUpperStep | linebot/scripts/firestore_migrate_snake_case.py:87 | one step of that: the head the scan writes is the same with more text after it |
| SnakeCase.LowerUpperKeeps | linebot/scripts/firestore_migrate_snake_case.py:87 | without a lower-case letter or digit before a capital, the first substitution inserts nothing |
| SnakeCase.LowerUpperOnce | linebot/scripts/firestore_migrate_snake_case.py:86-87 | a single lower-case letter or digit before a capital gets exactly one '_' between them |
| SnakeCase.UpperRunOf | linebot/scripts/firestore_migrate_snake_case.py:89 | a run of capitals followed by anything else is read as that run |
| SnakeCase.RunInside | linebot/scripts/firestore_migrate_snake_case.py:89 | a run of capitals that ends inside a text is the same run with more text after it |
| SnakeCase.AcronymConcat | linebot/scripts/firestore_migrate_snake_case.py:89 | the second substitution works piece by piece after any character that is not a capital |
| SnakeCase.AcronymStep | linebot/scripts/firestore_migrate_snake_case.py:89 | one step of that: the piece the scan writes is the same with more text after it |
| SnakeCase.PieceStable | linebot/scripts/firestore_migrate_snake_case.py:89 | a text ending in a non-capital starts with the same step of the scan whatever follows |
| SnakeCase.SingleStep | linebot/scripts/firestore_migrate_snake_case.py:89 | where no two capitals meet, each step passes over a single character |
| SnakeCase.SingleCapitals | linebot/scripts/firestore_migrate_snake_case.py:89 | where no two capitals meet, the second substitution finds nothing |
| SnakeCase.AcronymRun | linebot/scripts/firestore_migrate_snake_case.py:89 | a run of capitals with nothing after it is left alone |
| SnakeCase.AcronymWord | linebot/scripts/firestore_migrate_snake_case.py:88-89 | an acronym before a capitalised word gets '_' before the word's capital |
| SnakeCase.WordPiece | linebot/scripts/firestore_migrate_snake_case.py:89 | the first step of the scan over an acronym and a capitalised word is that match |
| SnakeCase.AcronymWordRun | linebot/scripts/firestore_migrate_snake_case.py:89 | the same holds with a trailing run of capitals after the word |
| SnakeCase.LowerEach | linebot/scripts/firestore_migrate_snake_case.py:90 | lower() lowers each character in place and keeps the length |
| SnakeCase.LowerDashesOf | linebot/scripts/firestore_migrate_snake_case.py:90 | the last step gives r when r lowers the text character by character |
| SnakeCase.PreviewNoteExample | linebot/scripts/firestore_migrate_snake_case.py:81 | previewNote becomes preview_note, as the docstring says |
| SnakeCase.AINoteExample | linebot/scripts/firestore_migrate_snake_case.py:80 | AINote becomes ai_note, as the docstring says |
| SnakeCase.GPTConversationIDExample | linebot/scripts/firestore_migrate_snake_case.py:79 | GPTConversationID becomes gpt_conversation_id, as the docstring says |
| SnakeCase.TableAgrees | linebot/scripts/firestore_migrate_snake_case.py:93-108 | two of the three listed corrections are what the prefix loop gives anyway; only gptconversationids gets a second '_' from the table |
| SnakeCase.GptEntry | linebot/scripts/firestore_migrate_snake_case.py:99-107 | the prefix loop turns gptconversation_id into gpt_conversation_id |
| SnakeCase.AiEntry | linebot/scripts/firestore_migrate_snake_case.py:101-107 | the prefix loop turns ainote into ai_note |
| SnakeCase.PrefixRuleSpec | linebot/scripts/firestore_migrate_snake_case.py:105-108 | the loop inserts one '_' after a collapsed gpt or ai prefix, changes the key exactly when it has one, and leaves none |
| SnakeCase.CollapsesIdempotent | linebot/scripts/firestore_migrate_snake_case.py:93-108 | a corrected key needs no further correction |
| SnakeCase.GptIdsLower | linebot/scripts/firestore_migrate_snake_case.py:100 | the table's corrected key has no capital |
| SnakeCase.CollapsesNoUpper | linebot/scripts/firestore_migrate_snake_case.py:93-108 | the correction brings in no capital |
| SnakeCase.NewKeyNormal | linebot/scripts/firestore_migrate_snake_case.py:115-116 | a normalised key has no capital and normalises to itself |
| SnakeCase.DeepSnake | linebot/scripts/firestore_migrate_snake_case.py:111-126 | atoms stay atoms, lists stay lists of the same length, dicts stay dicts |
| SnakeCase.FirstTo | linebot/scripts/firestore_migrate_snake_case.py:114-122 | the first entry whose key normalises to a given key, if any |
| SnakeCase.SnakeHas | linebot/scripts/firestore_migrate_snake_case.py:113-122 | after the first m entries a normalised key is present exactly when one of them normalises to it |
| SnakeCase.SnakeSelf | linebot/scripts/firestore_migrate_snake_case.py:117-122 | an entry already in normal form gives its key its value, whatever stands before or after it |
| SnakeCase.SnakeFirst | linebot/scripts/firestore_migrate_snake_case.py:117-122 | without such an entry, the key keeps the value of the first entry that normalises to it |
| SnakeCase.DeepSnakeKeys | linebot/scripts/firestore_migrate_snake_case.py:111-123 | the keys of the result are exactly the normalised keys; a key already in normal form beats any other key that normalises to it, and otherwise the first such entry wins |
| SnakeCase.DeepSnakeKeysOf | linebot/scripts/firestore_migrate_snake_case.py:111-126 | the recursive loops compute DeepSnake |
| SnakeCase.SnakeList | linebot/scripts/firestore_migrate_snake_case.py:124-125 | the list comprehension normalises every element in place |
| SnakeCase.SnakeEntriesStep | linebot/scripts/firestore_migrate_snake_case.py:114-122 | one more entry writes its normalised key unless that key is already present and the entry is not in normal form |
| SnakeCase.SnakeDict | linebot/scripts/firestore_migrate_snake_case.py:112-123 | the loop over the dict's items builds exactly the normalised dict |
| SnakeCase.SnakeEntry | linebot/scripts/firestore_migrate_snake_case.py:115-122 | one turn of the loop: the entry's normalised key is written, unless another key already wrote it and this one is not in normal form |
| PyDict.GetSpec | linebot/scripts/firestore_migrate_snake_case.py:65 | a key is in a dict exactly when some entry has it, and reading it gives the first such entry's value |
| PyDict.GetEntry | linebot/scripts/firestore_migrate_snake_case.py:114 | with unique keys each entry is what its key reads |
| PyDict.GetPut | linebot/scripts/firestore_migrate_snake_case.py:66 | after d[k] = v, k reads v and every other key reads as before |
| PyDict.GetPop | linebot/scripts/firestore_migrate_snake_case.py:66-70 | after d.pop(k), k is absent and every other key reads as before |
| PyDict.PutUnique | linebot/scripts/firestore_migrate_snake_case.py:66 | assignment keeps the keys unique |
| PyDict.PutKeys | linebot/scripts/firestore_migrate_snake_case.py:66 | the keys after d[k] = v are those of d together with k |
| PyDict.PopPut | linebot/scripts/firestore_migrate_snake_case.py:66 | writing a new key then popping another gives the same dict as the other way round |
| PyDict.PutAt | linebot/scripts/firestore_migrate_snake_case.py:66 | with unique keys, assigning an existing key replaces that entry where it stands |
| Migrate.RenameKeys | linebot/scripts/firestore_migrate_snake_case.py:61-72 | the loop over the table computes rename_keys round by round, in table order |
| Migrate.FirstSourceSpec | linebot/scripts/firestore_migrate_snake_case.py:64-67 | the value a new key is given comes from the earliest pair into it whose old key is present, and there is none exactly when no such pair exists |
| Migrate.RenameSpec | linebot/scripts/firestore_migrate_snake_case.py:61-72 | rename_keys removes every old key, never overwrites a key already set, gives a missing new key the value of the first present old key renamed into it, leaves every other key alone, and reports a change exactly when some old key was present |
| Migrate.RenameChangedStep | linebot/scripts/firestore_migrate_snake_case.py:65-71 | the flag after one more round is set exactly when it was before or the round's old key is in the input |
| Migrate.RenameStepSpec | linebot/scripts/firestore_migrate_snake_case.py:64-71 | one round keeps that description true from the table's prefix to one pair more |
| Migrate.RenameUnchanged | linebot/scripts/firestore_migrate_snake_case.py:61-72 | a rename that reports no change returns the dict as it was |
| Migrate.RenameAgain | linebot/scripts/firestore_migrate_snake_case.py:61-72 | renaming again changes nothing, since no old key is left for a second run |
| Migrate.FirstSourceAt | linebot/scripts/firestore_migrate_snake_case.py:64-67 | the first pair into a key whose old key is present decides its value |
| Migrate.WorkKeyMapSeparate | linebot/scripts/firestore_migrate_snake_case.py:50-58 | WorkKeyMap's old keys are distinct and none of them is a new key |
| Migrate.TopMapSeparate | linebot/scripts/firestore_migrate_snake_case.py:134-137 | so are the top-level renames |
| Migrate.SkeletonWins | linebot/scripts/firestore_migrate_snake_case.py:55-57 | a work item with skeletonVideo and video but no skeleton_video keeps skeletonVideo's value, whatever video held, and loses video |
| Migrate.TopRenameSpec | linebot/scripts/firestore_migrate_snake_case.py:138-144 | the hand-written rename drops the old key, keeps a value already under the new key, otherwise copies the old key's value there, touches no other key, and reports a change exactly when the old key was present |
| Migrate.TopRenameIsStep | linebot/scripts/firestore_migrate_snake_case.py:138-144 | that rename is one round of rename_keys: the same dict and the same flag |
| Migrate.TopRenamesAreRename | linebot/scripts/firestore_migrate_snake_case.py:138-144 | the top-level loop of migrate_user_doc is rename_keys over its table |
| Migrate.WorksAfter | linebot/scripts/firestore_migrate_snake_case.py:153-158 | every work item of a skill map is replaced in its place |
| Migrate.SkillsAfter | linebot/scripts/firestore_migrate_snake_case.py:151-158 | every skill map of the portfolio is updated in its place |
| Migrate.WorkAfterSpec | linebot/scripts/firestore_migrate_snake_case.py:154-158 | a work item after the pass is rename_keys' result, it holds no old key, and it was changed exactly when it held one |
| Migrate.SkillAfterUnchanged | linebot/scripts/firestore_migrate_snake_case.py:152-158 | a skill map none of whose work items changes comes out as it went in |
| Migrate.PortfolioPassSpec | linebot/scripts/firestore_migrate_snake_case.py:146-161 | each skill map is renamed in place, or the portfolio is left as it was when not a dict; either way no work item keeps an old key and no other field changes |
| Migrate.PortfolioPassReads | linebot/scripts/firestore_migrate_snake_case.py:159-161 | the pass writes the renamed portfolio back, or nothing |
| Migrate.SkillsAfterUnchanged | linebot/scripts/firestore_migrate_snake_case.py:151-158 | skill maps none of which changes come out as they went in |
| Migrate.PortfolioPassChanged | linebot/scripts/firestore_migrate_snake_case.py:146-161 | the pass reports a change exactly when the document differs afterwards |
| Migrate.SkillsAfterClean | linebot/scripts/firestore_migrate_snake_case.py:151-158 | after the pass no work item of the portfolio holds an old key |
| Migrate.PortfolioPassClean | linebot/scripts/firestore_migrate_snake_case.py:146-161 | a portfolio with no old key gives the pass nothing to do |
| Migrate.DeepPassSpec | linebot/scripts/firestore_migrate_snake_case.py:163-167 | the deep pass leaves the normalised document, and every key of a document with unique keys comes out without capitals and in its own normal form |
| Migrate.DeepPassOf | linebot/scripts/firestore_migrate_snake_case.py:163-167 | computes the deep pass, with its comparison |
| Migrate.TopMapRenames | linebot/scripts/firestore_migrate_snake_case.py:138-144 | the top-level loop is folderIDs first, then gptConversationIDs |
| Migrate.MigrateUserTop | linebot/scripts/firestore_migrate_snake_case.py:133-144 | without the deep pass folderIDs and gptConversationIDs are gone, a value already under folder_paths or gpt_conversation_ids is kept and otherwise the old one moves there, and every other field but the portfolio is left alone |
| Migrate.TopUnrolled | linebot/scripts/firestore_migrate_snake_case.py:138-144 | what the top-level loop leaves at each key |
| Migrate.MigrateUserPortfolio | linebot/scripts/firestore_migrate_snake_case.py:146-161 | without the deep pass every work item of the portfolio is rename_keys' result in its place, so none holds an old key; a portfolio that is not a dict is left alone |
| Migrate.MigrateUserChanged | linebot/scripts/firestore_migrate_snake_case.py:129-168 | without the deep pass the change flag is set exactly when the returned document differs from the input |
| Migrate.MigrateUserIdempotent | linebot/scripts/firestore_migrate_snake_case.py:129-168 | without the deep pass, running again on the output reports no change and returns it as it is |
| Migrate.DeepModeNotIdempotent | linebot/scripts/firestore_migrate_snake_case.py:150-167 | with the deep pass the script is not idempotent: a work item keyed "Video" comes out as "video" from the first run, and a second run renames that to "skeleton_video" and reports a change |
| Migrate.MigrateUserUnchanged | linebot/scripts/firestore_migrate_snake_case.py:129-168 | a document reported unchanged, deep pass or not, is returned as given |
| Migrate.MigrateSkillMap | linebot/scripts/firestore_migrate_snake_case.py:153-158 | the loop over a snapshot of a skill map replaces each changed work item in place and reports whether any changed |
| Migrate.WellformedGet | linebot/scripts/firestore_migrate_snake_case.py:147 | a value read from a well-formed document is well-formed |
| Migrate.TopRenamesOf | linebot/scripts/firestore_migrate_snake_case.py:138-144 | the top-level loop computes the table's renames in order |
| Migrate.PortfolioPassOf | linebot/scripts/firestore_migrate_snake_case.py:146-161 | the portfolio loops compute the portfolio pass |
| Migrate.MigrateUserDoc | linebot/scripts/firestore_migrate_snake_case.py:129-168 | migrate_user_doc: the top-level renames, the portfolio pass, then the deep pass when asked, changed when any of them changed something |
| Migrate.MessagesAfter | linebot/scripts/firestore_migrate_snake_case.py:186-191 | every message is replaced in its place |
| Migrate.MessageAfterSpec | linebot/scripts/firestore_migrate_snake_case.py:187-190 | a message dict loses conversationId, keeps a conversation_id it had and otherwise gets conversationId's value there, and keeps every other field; anything else is left alone |
| Migrate.MessagesPassReads | linebot/scripts/firestore_migrate_snake_case.py:192-194 | the pass writes the renamed list back, or nothing |
| Migrate.MessagesPassSpec | linebot/scripts/firestore_migrate_snake_case.py:182-194 | each message is renamed in place, or the field is left as it was when not a list; no conversationId is left, no other field changes, and the pass reports a change exactly when the document differs |
| Migrate.MessagesPassClean | linebot/scripts/firestore_migrate_snake_case.py:182-194 | a list with no conversationId gives the pass nothing to do |
| Migrate.MigrateChatTop | linebot/scripts/firestore_migrate_snake_case.py:175-180 | without the deep pass userId is gone, a user_id already there is kept and otherwise userId's value moves there, and every other field but the messages is left alone |
| Migrate.MigrateChatMessages | linebot/scripts/firestore_migrate_snake_case.py:182-194 | without the deep pass every message is renamed in its place, so none carries conversationId; a field that is not a list is left alone |
| Migrate.MigrateChatChanged | linebot/scripts/firestore_migrate_snake_case.py:171-201 | without the deep pass the change flag is set exactly when the returned document differs from the input |
| Migrate.MigrateChatIdempotent | linebot/scripts/firestore_migrate_snake_case.py:171-201 | without the deep pass migrate_chat_doc is idempotent |
| Migrate.MigrateChatUnchanged | linebot/scripts/firestore_migrate_snake_case.py:171-201 | a chat document reported unchanged is returned as given |
| Migrate.MigrateChatDoc | linebot/scripts/firestore_migrate_snake_case.py:171-201 | migrate_chat_doc: userId, then every message's conversationId, then the deep pass when asked |

## Left out

- I/O, concurrency and external services. The LINE, Firestore and Cloud Storage SDK calls are not modelled. The OpenAI clients, the pose-estimation HTTP clients and ffmpeg are also out. Each appears only through its results, as a function fixed on the application object, because none of them is bookkeeping the bot does itself.
- Goroutine fan-out in createUserGPTConversations (linebot/app/user_utils.go:40-71). This is an oracle that yields three conversation IDs or nothing, so the channel blocking after an early error is not modelled.
- Firestore transaction atomicity in AppendChatExchange. Only the transaction body is modelled.
- Clocks: time.Now, the sleep between retries and the summary's date. These are parameters or counted delays.
- JSON text decoding and request binding. A postback arrives as the decoded key-to-value map, or a decode failure. An HTTP request arrives as its bound fields, or a binding failure.
- Webhook signature parsing, gin routing, CORS, server timeouts, the `/callback` and `/test` routes, and logging. They are framework set-up or side output.
- The `/api/db/users` list endpoint (linebot/main.go:155-165). It only returns the store's ListUsers result.
- Float formatting and square roots. `%.2f` and `toFixed(2)` are not modelled, and grades are exact reals.
- Stats.GetUserSkillStats: a user record always has all three skill maps, so a record whose skill field is absent in Firestore cannot be given. The source answers that record with the invalid-portfolio error (linebot/api/db/stats.go:67-69); the model gives it no works and so empty statistics.
- Stats.AddUser: for the same reason, a scanned user whose skill field is absent cannot be given. The source skips that user (linebot/api/db/stats.go:105-107); the model has no such user, and a user with an empty map adds nothing either way.
- Migrate.DeepPass: reports a change by comparing the document with its normalised form structurally, entry order included. Python compares dicts regardless of key order (linebot/scripts/firestore_migrate_snake_case.py:163-167), and that the two comparisons agree is not proved.
- Stats.ComputeStats: returns the population variance where the source returns its square root (linebot/api/db/stats.go:56). A square root of a real is not available in this model.
- JavaScript's default sort and localeCompare are taken as code-point order on strings. On the `YYYY-MM-DD` keys the pages use, that order is the same.
- In the older class page, a work on a day when the viewer has none reaches `toFixed` on `undefined` and throws. The model gives the whole computation the result `Err("TypeError")`.
- UI.SortDescending: sort.Slice's in-place array sort is modelled on a sequence, as an insertion sort with the same comparison. Sort stability is not claimed.
- Flex message layout attributes (sizes, colours, margins, aspect ratios) and the generic fields of the LINE message structs. Only the texts, URLs, buttons and grouping are kept.
- Panics. Every nil dereference, out-of-range index and nil-map write is reported as a panic that ends the event loop, as net/http's recovery would; what happens after the recovery is not modelled. A missing user or session record panics at its first use on each path (PostbackHandlers.MissingRecordEffect, MessageHandlers.MessageEffect).
- EventHandlers.HandleEvent: the follow branch is the corrected HandleFollowEvent of the second Findings row. As written, every accepted welcome is followed by one more default error reply; EventHandlers.FollowAsWrittenDiffers states that this reply is the only difference.
- EventHandlers.HandleEvents: its per-event steps use the corrected follow effect, for the same reason; as written, each follow whose welcome LINE accepts adds one default error reply after it.
- ClassPage.Maxima: every user record in the model has a map for each skill. In the page, `Object.keys(user.Portfolio[skill])` throws a TypeError when a user has no map for the selected skill (liff/app/class/page.tsx:37-38 and 53-54); that case cannot be given.
- ClassPage.ClassAndPersonalAverage: likewise, the TypeError of a viewer or class member without a map for the selected skill is not modelled.
- The older top-level snapshot's duplicate handlers: app/handlers.go, app/postback_handlers.go, api/db/sessions.go, api/db/users.go and api/line/ui.go. The `linebot/` versions are modelled instead. From app/handlers.go only the menu labels are taken.
- UserStateChnStrToEnum is not part of this model. The rich-menu labels it decodes are taken from the menu switch of app/handlers.go:105-130, as Types.MenuLabels: six labels, each opening its feature state.
- getVideoFolder in app/video_utils.go:28-39 is the same switch over the older record's `FolderIDs`. The model's user record has only the folder paths, so VideoUtils.GetVideoFolder stands for both copies.
- ChatApi.ToLowerSpec: lowers the ASCII capitals A to Z only. Go's strings.ToLower (linebot/main.go:49) also lowers non-ASCII capitals, so the skill filter of the model can differ from the source on a skill name with such a letter.
- The migration script's str.lower, str.isupper and regular-expression character classes are taken on ASCII letters. The two `re.sub` calls are modelled as their left-to-right scans.
- Python scalars (strings, numbers, booleans, None and timestamps) are all one atom kind, written as their text. `copy.deepcopy` needs no modelling, because values are immutable.
- Migrate.MigrateUserIdempotent: idempotence is claimed only for `deep=False`. With `deep=True` the script is not idempotent, and Migrate.DeepModeNotIdempotent gives a document that a second run changes again.
- Migrate.PortfolioPassOf: requires the document's portfolio to be a well-formed Python value, with no dict repeating a key. A real dict always meets this.
- Migrate.MigrateUserDoc: requires the document to be a well-formed Python value, for the same reason.
- diff_dict, process_collection, run and main of the migration script are not modelled. They are printing and Firestore I/O around the migrate functions.
- The pose and grading service (angle_analysis_ai), the seed and cleanup scripts, utils/random.go, the Drive clients and the LIFF pages other than the two class-page aggregations are not part of this model. They are floating-point geometry, random data, SDK adapters or presentation.

## Findings

| source | as written | input that shows it | evidently intended | confidence | as-written member | corrected member |
|---|---|---|---|---|---|---|
| api/line/text_message_utils.go:12-15 | SendReply wraps the SDK's error with `fmt.Errorf`, even when that error is nil, so it returns a non-nil error after every reply | any reply that LINE accepts (the SDK call returns a nil error) | an error only when the reply call fails | not executed | LineBot.ReplyErrorAsWritten, LineBot.Client.SendReplyAsWritten (shown by LineBot.SendReplyAsWrittenDiffers) | LineBot.ReplyError, LineBot.Client.SendReply |
| linebot/app/event_handlers.go:23-27 | HandleFollowEvent passes SendWelcomeReply's error to handleLineError. Through SendReply that error is never nil, so every welcome is followed by the default error reply | a follow from a user whose profile LINE gives, with the welcome accepted | the default error reply only when the profile or the welcome fails | not executed | EventHandlers.HandleFollowEventAsWritten, LineBot.Client.SendWelcomeReplyAsWritten | EventHandlers.HandleFollowEvent, LineBot.Client.SendWelcomeReply |
