# Kakao Homes — verified model of the interior-design flow

Kakao Homes is a Next.js demo for people moving house. The user uploads a photo of a room and
circles the regions to redesign. An AI service returns a redesigned image, and the app
recommends furniture that fits the budget and the residence type (월세 monthly rent, 전세
lump-sum lease, 자가 owner). Two designs can be put to a vote among friends over KakaoTalk, and
a "my room" page tracks the move-in date and a moving checklist.

This project models the logic inside those screens in Dafny and proves what it promises:

- **Image payloads** (`ImagePayload`, `Base64`): the normalisation of a server payload into a
  `data:` URL (section 3 of RFC 2397). It strips white space, tests the base64 alphabet of
  section 4 of RFC 4648 and sniffs the JPEG signature. `atob` is a verified decoder following
  the forgiving-base64 algorithm of the WHATWG Infra standard, with an encoder and a round trip.
- **Regions** (`Regions`): pixel circles normalised to relative coordinates with a y-flip, and
  the inverse scale-up.
- **Selections** (`Selection`): the list toggles. Mood choices are unbounded in the result
  section and capped at 3 on the canvas page; products are capped at 2.
- **Furniture** (`ConstraintFilter`): the budget / removability / mood filter, the greedy
  one-item-per-category bundle with its running total, and the residence-type messages.
- **User store** (`UserStore`): the persisted store as a class. It has the merge setter, the
  single-field setters, the reset and the persistence projection. It also has three canvas fields
  that the upload and result sections use but the store does not declare.
- **Service client** (`AiEngineApi`): `dataURLtoFile`, with the MIME parse by the lazy regular
  expression, the comma split, the byte-copy loop over a `byte` array, and the File
  constructor's normalisation of the media type. Also the request and
  error mapping of `generateAiInterior`, which never throws.
- **Screens**:
  - the upload section (`UploadSection`), with its 10 MiB limit;
  - the AI result section (`ResultSection`), with its step machine, its guards, and the ordered
    choice of the "after" image;
  - the canvas page (`CanvasPage`), the my-room page (`MyPage`) and the tutorial carousel
    (`Carousel`);
  - the D-day shared by the schedule section and the sidebar (`DDay`, `Sidebar`).
- **Features**: the Kakao message templates (`KakaoBridge`) and the placeholder AI engine
  (`AiEngine`).

Components whose handlers update state in place are classes with `modifies` clauses. The user
store is one object (`UserStore.Store`) that the screen classes hold and change. Pure helpers
are functions with lemmas.

Clocks, the network, the file reader, randomness and helpers from modules that are not shown
become parameters of the methods:
- `today` for the D-day;
- `readerResult` and `fileSize` for uploads;
- `outcome` and `network` for the AI service;
- `recommended` for the random mood pick;
- `products` for the recommender.

## Model

| member | source | states |
|---|---|---|
| ImagePayload.ProcessBase64Image | src/components/sections/AIResultSection.tsx:27-93 | every result begins with `data:image/` and contains no white space |
| ImagePayload.StripSpace | src/components/sections/AIResultSection.tsx:37 | the cleaned text keeps exactly the non-`\s` characters, has none left, and is unchanged on text without white space |
| ImagePayload.ProcessIdempotent | src/components/sections/AIResultSection.tsx:37-43 | applying the normalisation to its own output returns that output unchanged |
| ImagePayload.DataUrlPassesThrough | src/components/sections/AIResultSection.tsx:40-43 | a payload that is a `data:image/` URL apart from white space is returned stripped |
| ImagePayload.PatternMeaning | src/components/sections/AIResultSection.tsx:60 | the test of `^[A-Za-z0-9+/]+=*$` holds exactly when the text splits into a non-empty alphabet run followed only by `=` |
| ImagePayload.Head100 | src/components/sections/AIResultSection.tsx:60 | the tested head is the first min(100, length) characters of the payload |
| ImagePayload.RawBase64Wrapped | src/components/sections/AIResultSection.tsx:47-82 | a payload whose head matches the pattern becomes `data:image/jpeg;base64,` + cleaned when it starts with `/9j/`, else `data:image/png;base64,` + cleaned |
| ImagePayload.PngPayloadBecomesPngDataUrl | src/components/sections/AIResultSection.tsx:47-63 | a PNG-signature payload gets the PNG prefix: the PNG detection only logs and never changes the output |
| ImagePayload.AlphabetOnlyMatches | src/components/sections/AIResultSection.tsx:60 | every non-empty text of alphabet characters only matches the pattern |
| ImagePayload.Base64CommaPrefixed | src/components/sections/AIResultSection.tsx:85-88 | a cleaned payload starting `base64,` becomes `data:image/png;` + cleaned |
| ImagePayload.UnrecognisedFallsBackToPng | src/components/sections/AIResultSection.tsx:90-92 | any other payload becomes `data:image/png;base64,` + cleaned |
| ImagePayload.DataUrl | src/components/sections/AIResultSection.tsx:63 | the wrapped URL is the prefix, the format, `;base64,` and the data, and it stays free of white space |
| Regions.NormalizeCircles | src/components/sections/AIResultSection.tsx:273-281 | `[]` when a side is 0, otherwise one circle per input circle |
| Regions.NormalizeRoundTrip | src/components/sections/AIResultSection.tsx:273-281 | with both sides non-zero, the normalised list has the same length and order, and scaling each circle back up (x·w, (1−y)·h, r·min) gives the original |
| Regions.DenormalizeNormalize | src/components/sections/AIResultSection.tsx:276-280 | x = cx/w, y = 1 − cy/h, radius = r/min(w, h) is inverted by the scale-up |
| Regions.NormalizeInUnitRange | src/components/sections/AIResultSection.tsx:276-280 | a circle inside a positive frame lands in [0, 1] on every coordinate |
| Regions.FlipAtEdges | src/components/sections/AIResultSection.tsx:278 | the y-flip sends the top edge to 1 and the bottom edge to 0 |
| Regions.NormalizeExample | src/components/sections/AIResultSection.tsx:273-281 | the circle (200, 260, r 60) on a 400 × 300 image becomes (0.5, 2/15, 0.2) |
| Selection.Remove | src/components/sections/AIResultSection.tsx:162 | `filter(id !== x)` keeps the other elements in their order (a subsequence), each as often as before, and no copy of x; it keeps them distinct and shrinks when x was present |
| Selection.Toggle | src/components/sections/AIResultSection.tsx:160-165 | the unbounded toggle: x is present afterwards exactly when it was absent, every other id is unchanged, distinctness is kept, and an absent id is appended at the end |
| Selection.ToggleTwice | src/components/sections/AIResultSection.tsx:160-165 | toggling an absent id twice restores the list |
| Selection.CappedToggle | src/components/sections/AIResultSection.tsx:187-198 | the capped toggle: a present id is removed; an absent one is appended only below the cap, else nothing changes; the length stays within the cap and the list stays distinct |
| Selection.CappedToggleTwice | src/app/canvas/page.tsx:85-93 | toggling an absent mood twice, below the cap, restores the selection |
| Selection.CappedToggleTwicePresent | src/app/canvas/page.tsx:85-93 | toggling a present id twice moves it to the end |
| ResultSection.ResultSection.constructor | src/components/sections/AIResultSection.tsx:119-130 | the section starts idle, slider at 50, nothing selected, no error and no vote |
| ResultSection.ResultSection.StartAnalysis | src/components/sections/AIResultSection.tsx:145-147 | analysis starts only from idle, with an edited image and at least one region |
| ResultSection.ResultSection.FinishAnalysis | src/components/sections/AIResultSection.tsx:150-156 | the three recommended moods are stored as the chosen moods and the step becomes settings |
| ResultSection.ResultSection.HandleMoodToggle | src/components/sections/AIResultSection.tsx:160-165 | the stored moods become the unbounded toggle of the mood; nothing else in the store changes |
| ResultSection.ResultSection.SelectResidenceType | src/components/sections/AIResultSection.tsx:509-512 | a residence-type button stores its own id (`monthly`, `yearly`, `own`) |
| ResultSection.ResultSection.HandleProceedToGenerate | src/components/sections/AIResultSection.tsx:167-171 | the step becomes ready only with a non-empty mood list and a residence type; otherwise nothing changes |
| ResultSection.ResultSection.BackToSettings | src/components/sections/AIResultSection.tsx:671 | "set up again" returns to settings and changes nothing else |
| ResultSection.ResultSection.SetSliderPosition | src/components/sections/AIResultSection.tsx:751-756 | the before/after slider takes the new position and nothing else changes |
| ResultSection.ResultSection.LoadProducts | src/components/sections/AIResultSection.tsx:173-185 | a new recommendation replaces the product list and clears the selection |
| ResultSection.ResultSection.HandleProductToggle | src/components/sections/AIResultSection.tsx:187-198 | the selection becomes the toggle capped at 2, and stays duplicate-free and at most 2 long |
| ResultSection.SelectedProducts | src/components/sections/AIResultSection.tsx:202-204 | the selected products are the recommended products whose id is selected, in recommendation order (a subsequence) and each as often as recommended; so the first is option A of the vote |
| ResultSection.ResultSection.HandleShareVote | src/components/sections/AIResultSection.tsx:200-220 | with other than two matching products it alerts and changes nothing; with two it opens the vote dialog on a vote over them and the result image (or "") |
| ResultSection.ResultSection.CloseVoteModal | src/components/sections/AIResultSection.tsx:1011 | closing the dialog changes only its flag |
| ResultSection.ResultSection.HandleSaveProject | src/components/sections/AIResultSection.tsx:222-248 | without both images and a service answer, nothing is saved and the missing-information alert is shown; otherwise the project saved carries the mood title, both images, the moods, the residence type and the answer, and the saved flag is set |
| ResultSection.MoodLabel | src/components/sections/AIResultSection.tsx:95-110 | a label exists exactly for the ids of the mood options, and it is never empty |
| ResultSection.MoodLabels | src/components/sections/AIResultSection.tsx:229-232 | no label is empty; there are as many labels as ids when every id is known, and none exactly when no id is known |
| ResultSection.MoodLabelsOfOne | src/components/sections/AIResultSection.tsx:229-232 | one id gives its option's label when it is a mood option and nothing otherwise |
| ResultSection.MoodLabelsAppend | src/components/sections/AIResultSection.tsx:229-232 | the labels of two lists one after the other are the labels of each, in order; with MoodLabelsOfOne this fixes every label list |
| ResultSection.JoinWithAppend | src/components/sections/AIResultSection.tsx:232 | `join` of two non-empty lists is the two joins with one separator between them |
| ResultSection.ProjectTitle | src/components/sections/AIResultSection.tsx:229-233 | the title ends in " 인테리어" and what comes before it is the labels joined by " & " |
| ResultSection.BareTitle | src/components/sections/AIResultSection.tsx:229-233 | the title is " 인테리어" alone exactly when no chosen id is a mood option |
| ResultSection.ProjectTitleAppend | src/components/sections/AIResultSection.tsx:229-233 | moods in two groups, each naming an option, give the first group's labels, " & ", then the second group's title |
| ResultSection.ProjectTitleExample | src/components/sections/AIResultSection.tsx:229-233 | `modern` then `minimal` give the title "모던 & 미니멀 인테리어" |
| ResultSection.ResultSection.HandleDevMockResult | src/components/sections/AIResultSection.tsx:250-270 | the mock moods, residence type and both images are stored, and the step jumps to result |
| ResultSection.GuardError | src/components/sections/AIResultSection.tsx:283-294 | the guards let a request through exactly when the edited image, the canvas size and at least one region exist; otherwise the missing-image or no-region error |
| ResultSection.ProcessField | src/components/sections/AIResultSection.tsx:340-395 | a payload field yields a data URL exactly when it is a non-empty string |
| ResultSection.AfterImage | src/components/sections/AIResultSection.tsx:356-400 | there is no after image exactly when the final image, the first product's image and the result URL are all absent |
| ResultSection.FinalImageWins | src/components/sections/AIResultSection.tsx:356-371 | a present final image is the after image whatever else the answer holds |
| ResultSection.ProductImageOnlyAsFallback | src/components/sections/AIResultSection.tsx:373-391 | the first product's image is used only when the final image yields nothing |
| ResultSection.AfterImageShape | src/components/sections/AIResultSection.tsx:356-400 | the after image is a `data:image/` URL unless it is the server's result URL |
| ResultSection.ResultSection.StoreAfterImage | src/components/sections/AIResultSection.tsx:356-400 | the stored result image becomes the first present of final image, first product image and result URL, and stays unchanged when none is present; nothing else in the store changes |
| ResultSection.ResultSection.HandleGenerateAi | src/components/sections/AIResultSection.tsx:283-421 | a guard failure sets its error and sends nothing. Otherwise it sends the edited image, the size and the normalised circles. On success it stores the answer and the before image if present; the after image goes to the first present of final, product and result URL; the step becomes result even with none. A failure keeps its message or the generation-failed text; a throw gives the communication error. `isGenerating` is false on every exit |
| ConstraintFilter.FilterItems | src/features/constraint-filter/index.ts:74-98 | the filtered list is an order-preserving subsequence holding exactly the items that pass all three checks |
| ConstraintFilter.FilterFurnitureMeaning | src/features/constraint-filter/index.ts:74-98 | every returned item is within budget × 10000, removable for 월세, and shares a mood when moods are given; an item of the catalogue is returned exactly when it meets all three |
| ConstraintFilter.NoMoodsNoMoodConstraint | src/features/constraint-filter/index.ts:87-94 | with no moods the mood check never rejects |
| ConstraintFilter.FirstAffordable | src/features/constraint-filter/index.ts:115-121 | the pick is the first item of the category that still fits the remaining budget, and none when no item does |
| ConstraintFilter.GenerateFurnitureBundle | src/features/constraint-filter/index.ts:103-128 | the loop builds exactly the greedy bundle over 수납, 조명, 가구, 패브릭, and `totalPrice` is the sum of its prices |
| ConstraintFilter.PickPerCategory | src/features/constraint-filter/index.ts:106-127 | walking the categories in order with the running total gives exactly the greedy bundle, and the total is the sum of its prices |
| ConstraintFilter.PickInCategory | src/features/constraint-filter/index.ts:115-124 | one iteration pushes the first affordable item of its category, if any, adds its price, and moves the greedy remainder one category on |
| ConstraintFilter.BundleProperties | src/features/constraint-filter/index.ts:106-127 | the bundle costs at most budget × 10000 (when the budget is not negative), each item comes from the filtered list, and categories appear at most once and in category order |
| ConstraintFilter.GreedyWithinBudget | src/features/constraint-filter/index.ts:114-125 | the running total never passes the budget once an item was chosen |
| ConstraintFilter.GreedyShape | src/features/constraint-filter/index.ts:112-125 | chosen items come from the list, their categories a subsequence of the category order |
| ConstraintFilter.SumAppend | src/features/constraint-filter/index.ts:122-123 | pushing an item adds its price to the sum |
| ConstraintFilter.ResidenceTypeMessage | src/features/constraint-filter/index.ts:133-143 | every residence type has a non-empty message |
| ConstraintFilter.ResidenceMessagesDistinct | src/features/constraint-filter/index.ts:136-140 | two residence types share a message exactly when they are the same type |
| UserStore.Store.constructor | src/store/useUserStore.ts:27-40 | the store starts at the initial state: empty nickname and moods, budget 0, no date, no images |
| UserStore.Store.SetPersona | src/store/useUserStore.ts:42 | the data becomes the spread of the patch over the old data |
| UserStore.MergeOverwritesExactlySupplied | src/store/useUserStore.ts:42 | a supplied field is overwritten and a left-out field keeps its value |
| UserStore.MergeLaws | src/store/useUserStore.ts:42 | an empty patch changes nothing, a patch applied twice is applied once, and two patches in a row are their combination |
| UserStore.Store.SetMoods | src/store/useUserStore.ts:44 | only `moods` changes |
| UserStore.Store.SetResidenceType | src/store/useUserStore.ts:46 | only `residenceType` changes |
| UserStore.Store.SetBudget | src/store/useUserStore.ts:48 | only `budget` changes |
| UserStore.Store.SetMoveInDate | src/store/useUserStore.ts:50 | only `moveInDate` changes |
| UserStore.Store.SetUploadedRoomImg | src/store/useUserStore.ts:52 | only `uploadedRoomImg` changes |
| UserStore.Store.SetAiResult | src/store/useUserStore.ts:54 | only `aiResultImg` changes |
| UserStore.Store.ResetState | src/store/useUserStore.ts:56 | every declared field goes back to its initial value, whatever came before |
| UserStore.Store.Persisted | src/store/useUserStore.ts:60-66 | the persisted record is the projection of the current data |
| UserStore.PartializeExactlyFiveFields | src/store/useUserStore.ts:60-66 | two states persist alike exactly when nickname, moods, residence type, budget and date agree; the images never reach storage |
| UserStore.Store.SetCircles | src/components/sections/UploadSection.tsx:16 | the undeclared `circles` setter changes only that field |
| UserStore.Store.SetEditedImage | src/components/sections/UploadSection.tsx:17 | the undeclared `editedImage` setter changes only that field |
| UserStore.Store.SetCanvasSize | src/components/sections/UploadSection.tsx:18 | the undeclared `canvasSize` setter changes only that field |
| AiEngineApi.Split | src/lib/api/ai-engine.ts:27 | `split(",")` gives at least one piece, none containing a comma, and one piece exactly when there is no comma |
| AiEngineApi.JoinSplit | src/lib/api/ai-engine.ts:27 | joining the pieces gives the data URL back |
| AiEngineApi.SplitJoin | src/lib/api/ai-engine.ts:27 | splitting a join of comma-free pieces gives the pieces back |
| AiEngineApi.LazyEnd | src/lib/api/ai-engine.ts:28 | the lazy `.*?;` stops at the first `;` and crosses no line terminator |
| AiEngineApi.MimeOf | src/lib/api/ai-engine.ts:28 | the media type is never empty |
| AiEngineApi.MimeBetween | src/lib/api/ai-engine.ts:27-28 | the media type is the text between the first `:` and the next `;`, or `image/png` when that text is empty |
| AiEngineApi.NoColonDefault | src/lib/api/ai-engine.ts:28 | without a `:` the media type is `image/png` |
| AiEngineApi.Payload | src/lib/api/ai-engine.ts:29 | only the second comma-separated piece is decoded |
| AiEngineApi.NoCommaRefused | src/lib/api/ai-engine.ts:27-29 | a data URL without a comma decodes `undefined`, which `atob` refuses |
| AiEngineApi.CharCodes | src/lib/api/ai-engine.ts:33-35 | the bytes have the decoded string's length, and byte i is the char code of character i |
| AiEngineApi.FileType | src/lib/api/ai-engine.ts:37 | the File's `type` is "" when the given type has a character outside U+0020 to U+007E, and otherwise that type with each ASCII capital lowered |
| AiEngineApi.FileTypeKeepsLowerAscii | src/lib/api/ai-engine.ts:37 | a type in printable lower-case ASCII reaches the File unchanged |
| AiEngineApi.FileTypeIdempotent | src/lib/api/ai-engine.ts:37 | normalising a File type twice is normalising it once |
| AiEngineApi.FileTypeLowersCase | src/lib/api/ai-engine.ts:37 | the type `Image/PNG` reaches the File as `image/png` |
| AiEngineApi.DataUrlToFile | src/lib/api/ai-engine.ts:26-38 | the loop from the last index down fills the array with every char code; the file is the bytes, the name and the parsed media type as the File constructor normalises it, and there is none exactly when `atob` fails |
| AiEngineApi.DataUrlRoundTrip | src/lib/api/ai-engine.ts:26-38 | a `data:<mime>;base64,<encoding of b>` URL gives back exactly the bytes b, the name and the normalised media type, which is the media type itself when it is printable lower-case ASCII |
| AiEngineApi.Decimal | src/lib/api/ai-engine.ts:67 | the status is written as canonical decimal digits that read back as the status |
| AiEngineApi.HttpErrorMessage | src/lib/api/ai-engine.ts:67 | the message is `HTTP error! status: ` followed by the status in decimal |
| AiEngineApi.ErrorMessage | src/lib/api/ai-engine.ts:76 | an Error's own message, otherwise the fixed unknown-error text |
| AiEngineApi.GenerateAiInterior | src/lib/api/ai-engine.ts:45-79 | never throws. An undecodable image fails before sending. The body is the file under `image` (named `room-image.png`) and the circles under `circles`. A rejected fetch or unreadable body fails with its error, and a non-OK status fails with the HTTP message. Success only passes on the server's own answer |
| AiEngineApi.HttpFailureMessage | src/lib/api/ai-engine.ts:66-78 | a failure made by the client is never a success and always carries a non-empty message |
| Base64.DecodeGroups | src/lib/api/ai-engine.ts:29 | `atob`'s decoding yields 3 bytes per 4 characters and 1 or 2 for a trailing group of 2 or 3 |
| Base64.AtobRefusesUndefined | src/lib/api/ai-engine.ts:29 | `atob` throws on the text `undefined` |
| Base64.AtobEncode | src/lib/api/ai-engine.ts:29 | `atob` of the base64 encoding of any bytes gives those bytes back as characters |
| UploadSection.LimitBoundary | src/components/sections/UploadSection.tsx:26 | a file of exactly 10 × 1024 × 1024 bytes is accepted and one byte more is refused |
| UploadSection.UploadSection.constructor | src/components/sections/UploadSection.tsx:11 | the section starts on the upload step |
| UploadSection.UploadSection.HandleImageUpload | src/components/sections/UploadSection.tsx:21-43 | a file over 10 MiB gives the size alert and changes nothing; no file changes nothing; an accepted file sets the image to the reader's result and clears circles, edited image and canvas size |
| UploadSection.UploadSection.HandleRemoveImage | src/components/sections/UploadSection.tsx:45-51 | the image, circles, edited image and canvas size are cleared and the step is upload |
| UploadSection.UploadSection.HandleStartEdit | src/components/sections/UploadSection.tsx:53-55 | the step becomes edit |
| UploadSection.UploadSection.HandleSaveEdit | src/components/sections/UploadSection.tsx:57-59 | the step becomes upload |
| CanvasPage.CanvasPage.constructor | src/app/canvas/page.tsx:57-61 | the page starts on upload with no moods, slider 50, no preset, not generating |
| CanvasPage.CanvasPage.HandleImageUpload | src/app/canvas/page.tsx:71-83 | with a file, the image becomes the reader's result; without one nothing changes |
| CanvasPage.CanvasPage.ClearUpload | src/app/canvas/page.tsx:198 | "choose again" clears only the uploaded image |
| CanvasPage.CanvasPage.HandleMoodToggle | src/app/canvas/page.tsx:85-93 | the moods become the toggle capped at 3; they stay distinct and never exceed 3 |
| CanvasPage.CanvasPage.SelectPreset | src/app/canvas/page.tsx:320 | a preset button selects its own id |
| CanvasPage.CanvasPage.SlideIntensity | src/app/canvas/page.tsx:297-302 | the intensity slider takes the value and nothing else changes |
| CanvasPage.CanvasPage.NextFromUpload | src/app/canvas/page.tsx:227-228 | "next" (enabled only with an uploaded image) moves to settings |
| CanvasPage.CanvasPage.BackToUpload | src/app/canvas/page.tsx:350 | "back" moves to upload and keeps the choices |
| CanvasPage.CanvasPage.HandleGenerate | src/app/canvas/page.tsx:95-108 | the result stored is the chosen preset's image, or the default URL with no preset; generation ends and the step is results |
| CanvasPage.CanvasPage.RegenerateToSettings | src/app/canvas/page.tsx:448-449 | "generate again" returns to settings keeping the choices |
| CanvasPage.FindPresetImage | src/app/canvas/page.tsx:102 | `find` yields an image exactly when some preset has the id, and then that preset's image |
| CanvasPage.ResultImage | src/app/canvas/page.tsx:101-105 | no preset gives the default URL; an id no preset has gives "" |
| CanvasPage.ResultImageOfPreset | src/app/canvas/page.tsx:36-53 | each listed preset yields its own non-empty image |
| CanvasPage.GeneratedResultNonEmpty | src/app/canvas/page.tsx:101-105 | with no preset or a listed one, the result is never empty |
| CanvasPage.IsPastMeansEarlier | src/app/canvas/page.tsx:134-137 | a step shows as past exactly when it comes before the current step |
| MyPage.ToggleChecklist | src/app/my/page.tsx:92-98 | the list keeps its length, ids and texts; `completed` flips exactly on the items with the id |
| MyPage.ToggleChecklistTwice | src/app/my/page.tsx:92-98 | toggling the same id twice restores the checklist |
| MyPage.ToggleAbsentId | src/app/my/page.tsx:92-98 | an id no item carries changes nothing |
| MyPage.CompletedCount | src/app/my/page.tsx:326 | the counter is at most the list length, and 0 exactly when nothing is completed |
| MyPage.InitialCount | src/app/my/page.tsx:35-41 | the initial checklist shows 2 completed of 5 |
| MyPage.ToggleMovesCount | src/app/my/page.tsx:92-98 | with unique ids, one toggle moves the counter by exactly one |
| MyPage.MyPage.constructor | src/app/my/page.tsx:75-81 | the temporary budget starts at the stored budget, or 100 when that is 0; the nickname is copied; the date text is empty without a stored date |
| MyPage.MyPage.ToggleEditing | src/app/my/page.tsx:129 | the edit button flips editing mode |
| MyPage.MyPage.EditNickname | src/app/my/page.tsx:142 | the nickname input changes only the temporary nickname |
| MyPage.MyPage.EditMoveInDate | src/app/my/page.tsx:152 | the date input changes only the temporary date |
| MyPage.MyPage.SlideBudget | src/app/my/page.tsx:163-169 | the budget slider changes only the temporary budget |
| MyPage.MyPage.HandleSave | src/app/my/page.tsx:83-90 | the nickname and budget are written, the move-in date only when a date was entered, and editing always ends |
| MyPage.MyPage.ToggleChecklistItem | src/app/my/page.tsx:92-98 | the checklist becomes its toggle |
| MyPage.MyPage.SelectResidenceType | src/app/my/page.tsx:204 | a residence-type button stores its own id |
| Carousel.Next | src/components/TutorialCarousel.tsx:56-58 | (i+1) mod 4, always within [0, 4) |
| Carousel.Prev | src/components/TutorialCarousel.tsx:60-62 | (i−1+4) mod 4, always within [0, 4) |
| Carousel.NextPrevInverse | src/components/TutorialCarousel.tsx:56-62 | back after forward, and forward after back, return to the same slide |
| Carousel.AdvanceModular | src/components/TutorialCarousel.tsx:45-47 | k advances move (i + k) mod 4 |
| Carousel.FullCycle | src/components/TutorialCarousel.tsx:45-47 | four advances, by button or timer, come back to the starting slide |
| Carousel.TutorialCarousel.constructor | src/components/TutorialCarousel.tsx:42 | the carousel starts at slide 0 |
| Carousel.TutorialCarousel.NextSlide | src/components/TutorialCarousel.tsx:56-58 | the slide becomes the next one, cyclically |
| Carousel.TutorialCarousel.PrevSlide | src/components/TutorialCarousel.tsx:60-62 | the slide becomes the previous one, cyclically |
| Carousel.TutorialCarousel.GoToSlide | src/components/TutorialCarousel.tsx:52-54 | a dot sets the slide to exactly its index |
| Carousel.TutorialCarousel.Tick | src/components/TutorialCarousel.tsx:45-47 | one timer firing is the same step as the forward arrow |
| DDay.CalculateDDay | src/components/sections/ScheduleSection.tsx:9-15 | null exactly without a date; otherwise the whole number k with (k−1)·86400000 < target − today ≤ k·86400000 |
| DDay.DDayUnique | src/components/sections/ScheduleSection.tsx:13 | that whole number is the only one meeting the bounds |
| DDay.ExactDays | src/components/sections/ScheduleSection.tsx:13 | equal instants give 0 and an exact k days gives k |
| DDay.FractionRoundsUp | src/components/sections/ScheduleSection.tsx:13 | any positive part of a day counts as a whole day |
| DDay.DDayMonotone | src/components/sections/ScheduleSection.tsx:13 | a later move-in date never gives a smaller D-day |
| DDay.ShownExactlyWithDate | src/components/sections/ScheduleSection.tsx:37 | the D-day block is rendered exactly when a date is set, with negative counts unclamped |
| Sidebar.Widget | src/components/Sidebar.tsx:19-27 | the sidebar widget shows exactly when a date is set, with the rounded-up day count |
| Sidebar.Sidebar.constructor | src/components/Sidebar.tsx:16 | `activeNav` starts as `home` |
| Sidebar.Sidebar.Highlighted | src/components/Sidebar.tsx:44-58 | one flag per entry in display order, set exactly for the entry whose id is `activeNav`; exactly one entry is highlighted |
| Sidebar.Sidebar.Click | src/components/Sidebar.tsx:50 | a click highlights exactly the clicked entry |
| KakaoBridge.CreateMessageTemplate | src/features/kakao-bridge/index.ts:93-139 | always a `feed`. A share has one 자세히 보기 button on its link. A vote has the fixed question, option A's image and the site link, with buttons A then B to `/vote/a` and `/vote/b` |
| KakaoBridge.ShareTemplateRoundTrip | src/features/kakao-bridge/index.ts:101-106 | the share template copies title, description, image and link verbatim |
| KakaoBridge.VoteTemplateKeeps | src/features/kakao-bridge/index.ts:114-138 | two votes give the same template exactly when their titles and option A's images agree |
| KakaoBridge.ShareToKakao | src/features/kakao-bridge/index.ts:37-47 | sharing always reports success |
| KakaoBridge.ShareVoteToKakao | src/features/kakao-bridge/index.ts:52-57 | sharing a vote always reports success |
| KakaoBridge.GetVoteResults | src/features/kakao-bridge/index.ts:62-71 | the tally is always 12 to 8 with five voters |
| AiEngine.RenderImage | src/features/ai-engine/index.ts:38-50 | always one of the three preset URLs; style2 and style3 exactly for their own ids; style1 for any other, missing or empty id |
| AiEngine.AsWrittenAgreesOffPrototype | src/features/ai-engine/index.ts:43-49 | for any id that is not an inherited property name, the lookup as written returns the same URL |
| AiEngine.RenderImageAsWritten | src/features/ai-engine/index.ts:43-49 | whenever the lookup as written yields a string, it is one of the three URLs |
| AiEngine.InheritedKeyEscapes | src/features/ai-engine/index.ts:49 | the id `toString` makes the lookup as written return a function, where the intended result is the style1 URL |
| AiEngine.AnalyzeImage | src/features/ai-engine/index.ts:23-32 | the same analysis whatever the image |
| AiEngine.ExtractMood | src/features/ai-engine/index.ts:56-61 | always `modern`, `wood`, `cozy` |

## Left out

- Layout, styling, animation and icons, and the static mock lists that are only displayed.
- Timing: the simulated delays (`setTimeout` before results), the carousel's 5-second interval
  (each firing is a call of `Tick`) and the scroll after saving an edit. Each async handler is
  modelled as running to completion, so interleavings with other clicks are not modelled.
- `alert` and `console` output: alerts are returned as values where the handler shows one, and
  logs are dropped.
- `Math.random` in the analysis effect: the three recommended moods are a parameter of
  `FinishAnalysis`, required to be distinct option ids.
- `getRecommendedProducts`, `createVote`, `getShareUrl` and `saveProject` come from modules that
  are not part of this model. The products are a parameter; the vote and the saved project are
  modelled as the arguments passed to those helpers.
- The `EditCanvas` region editor is not part of this model. Its effects reach the model only
  through the store's `circles`, `editedImage` and `canvasSize` setters.
- `ResultSection.ResultSection.HandleGenerateAi`: the result section calls a `generateAiInterior`
  from `features/ai-engine/api`, which is not part of this model and takes an image width and
  height. The service's answer or throw is therefore the parameter `outcome`. The client in
  `lib/api/ai-engine.ts` is modelled on its own as `AiEngineApi.GenerateAiInterior`.
- `AiEngineApi.GenerateAiInterior`: `fetch`, `FormData` and `response.json()` are inputs. The
  `File` it sends is the one `AiEngineApi.DataUrlToFile` builds, whose `type` follows the File
  constructor's normalisation (`AiEngineApi.FileType`).
  The circles travel as structured values: the number formatting of `JSON.stringify` is not
  modelled. The error `atob` throws is a parameter, because its message is the browser's.
- JavaScript numbers: circle coordinates are exact reals (no IEEE-754 rounding). Prices, budgets
  and timestamps are unbounded integers, so a fractional budget or price is not modelled.
- Dates: `new Date(...)` parsing, Invalid Date/NaN and the `date-fns` formatting of the stored date
  are inputs (`parsedDate`, `formattedMoveInDate`); a date is a millisecond timestamp.
- The zustand `persist` middleware and local storage: only the `partialize` projection is modelled.
- The store's `circles`, `editedImage` and `canvasSize` fields are not declared in
  `useUserStore.ts` but are read and set by the upload and result sections. The model gives them
  plain setters on `UserStore.Store`, as those sections assume.
- `UploadSection.tsx:37` calls an undefined `setIsEditMode` after the four store updates. It would
  throw inside the reader callback after those updates; the model has the updates and no other
  effect.
- The residence-type ids differ between screens: the result section stores `monthly`, `yearly` and
  `own`, while the my-room page and the furniture filter use `월세`, `전세` and `자가`. Each screen is
  modelled with its own ids, so no 월세 rule applies to a value the result section stored.
- `KakaoBridge.CreateMessageTemplate`: the source takes a `type` tag and a content object separately.
  The model joins them in one tagged union, so a tag that does not match its content is not modelled.
- The Kakao SDK availability check and `initKakaoSDK` are not modelled: both stubs return `true` on
  every path.
- `resultImageUrl` values that are not strings are not modelled (the field is an optional string).
- Slider and button ranges are preconditions: a budget of 50 to 500 in steps of 10, an intensity of
  0 to 100 in steps of 10, a before/after slider of 0 to 100, and indices the UI renders.
- `ConstraintFilter.BundleProperties`: the budget bound is stated for a non-negative budget or a
  non-empty bundle. With a negative budget the empty bundle's total of 0 already exceeds budget × 10000.
- `ImagePayload.ProcessBase64Image`: the log label and the PNG-detection log are not modelled.

## Findings

| source | as written | input that shows it | evidently intended | confidence | as-written member | corrected member |
|---|---|---|---|---|---|---|
| src/features/ai-engine/index.ts:43-49 | `presetImages[options.presetId \|\| "style1"]` reads a plain object literal, so an id naming an inherited property of `Object.prototype` finds that property. It is truthy, so the `\|\| presetImages.style1` fallback is skipped and a function is returned where a URL string is promised | `renderImage({ presetId: "toString", ... })` | any id that is not a preset falls back to the style1 URL (`Object.hasOwn` or a `Map` lookup) | not executed | AiEngine.RenderImageAsWritten (shown by AiEngine.InheritedKeyEscapes) | AiEngine.RenderImage |
