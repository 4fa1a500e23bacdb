# DeepSeaEDNA client: verified model of its three state machines

The DeepSeaEDNA mobile client manages marine environmental-DNA (eDNA) samples. Almost all of it is declarative screens over literal mock data. What it actually does happens in three small, sequential state machines. This project models them in Dafny and proves their properties:

- **Sample upload** (`upload.dfy`, module `SampleUpload`). This is the form of the upload screen:
  - a metadata record of eight text fields;
  - an optional sequencing file, picked from a two-option dialog;
  - the `isUploading` flag and the `uploadProgress` counter.

  Submitting checks, in order, that a file is selected and that the four required fields (name, latitude, longitude, depth) are non-empty. A successful submit starts a repeating timer. Each firing adds 10 to the progress. A firing that finds the progress at 100 or more sets it to exactly 100, stops the timer, ends the upload and shows the success alert.
- **Onboarding carousel** (`onboarding.dfy`, module `Onboarding`). A pager over three fixed slides:
  - "Next" asks the list to scroll one slide forward, or fires the `onComplete` callback on the last slide;
  - only the list's scroll-end event moves the current index;
  - the button label and the "Skip" button depend only on whether the index is the last one.
- **App shell** (`app.dfy`, module `AppShell`). This is the root component. Two in-memory flags, `isLoading` and `hasSeenOnboarding`, select the splash screen, the onboarding carousel or the main navigator, and loading takes priority. The init timer clears `isLoading`. The carousel's completion callback sets `hasSeenOnboarding`. Neither flag is ever reset.

The upload form and the app shell follow the same pattern:

- a value type for the state;
- one pure step function per event;
- lemmas about those functions;
- a class holding the component's `useState` slots as fields.

Each of their class methods changes the fields imperatively. Its `ensures` clause equates the new state with the step function applied to the old one.

The carousel's only state is one index, so its class `Onboarding.Pager` holds that index directly:
- `ScrollTo` changes nothing and returns `NextAction(currentIndex)`.
- `MomentumScrollEnd` sets the index to the one reported.
- The walk over the slides is the pure function `PressNext`.

Effects are modelled as follows:

- Alerts are returned as `Alert` values.
- Scroll requests and the completion callback are returned as `PagerAction` values.
- A timer firing is a method call, or a count of periods in `RunTicks` and an `Event` in `Run`.
- The default date, which the source reads from the clock, is a parameter of the initial state.

Where this model decides something the code leaves implicit:

- `handleUpload` has its own no-file guard, even though the disabled button (`SampleUploadScreen.tsx:263`) already makes that path unreachable. The model keeps the guard as an error path.
- `handleUpload` is modelled only while no upload runs. The disabled button is its only caller.
- The interval exists exactly while `isUploading` is true, so ticks are modelled only then.
- `selectedFile` is an `Option<string>`. The guard `!selectedFile` also rejects an empty name, as JavaScript truthiness does.
- The sample type is a plain string, because `updateMetadata` takes any string value.

## Model

| member | source | states |
|---|---|---|
| SampleUpload.Initial | src/screens/SampleUploadScreen.tsx:29-42 | The form starts with no file, not uploading, progress 0, required fields empty, type "sediment" and the given date, and satisfies the progress/file invariant |
| SampleUpload.With | src/screens/SampleUploadScreen.tsx:85-87 | Writing field f gives a record where f reads the new value and every other field reads as before |
| SampleUpload.AfterUpdate | src/screens/SampleUploadScreen.tsx:85-87 | Editing a field changes only that metadata field; file, upload flag and progress are untouched and the invariant is kept |
| SampleUpload.UpdateIdempotent | src/screens/SampleUploadScreen.tsx:85-87 | Writing the same value to the same field twice equals writing it once |
| SampleUpload.AfterPick | src/screens/SampleUploadScreen.tsx:44-55 | FASTA selects "sample.fasta", FASTQ selects "sample.fastq", Cancel leaves the state unchanged; nothing else changes and the invariant is kept |
| SampleUpload.MissingRequiredIff | src/screens/SampleUploadScreen.tsx:63 | The field guard fails exactly when some field of the required set {name, latitude, longitude, depth} is the empty string |
| SampleUpload.OptionalFieldIrrelevant | src/screens/SampleUploadScreen.tsx:63 | Editing type, region, date or description never changes whether required fields are missing |
| SampleUpload.NoNumericCheck | src/screens/SampleUploadScreen.tsx:63-69 | For every state with a file selected and any non-empty text in the four required fields, blanks and non-numbers included, submit starts the upload: no parsing or range check is done |
| SampleUpload.AfterSubmit | src/screens/SampleUploadScreen.tsx:57-70 | No file gives the file error with state unchanged; with a file, a missing required field gives the fields error with state unchanged; the upload starts (uploading, progress 0, nothing else changed) exactly when both checks pass |
| SampleUpload.FileCheckedFirst | src/screens/SampleUploadScreen.tsx:58-66 | With no file and required fields also empty, the file error is the one reported |
| SampleUpload.EnabledSubmitChecksFieldsOnly | src/screens/SampleUploadScreen.tsx:257-268 | While the button is enabled it reads "Start Analysis" and submit cannot give the file error; a started upload disables the button and relabels it "Processing..." |
| SampleUpload.AfterTick | src/screens/SampleUploadScreen.tsx:72-82 | Below 100 a firing adds 10 and keeps uploading with no alert; at 100 or more it sets 100, ends uploading and raises the success alert; the invariant is kept and progress never decreases |
| SampleUpload.TicksWhileRunning | src/screens/SampleUploadScreen.tsx:68-82 | For k up to 10 periods after submit, the upload runs with progress exactly 10 * k and the rest of the form unchanged |
| SampleUpload.TicksFinish | src/screens/SampleUploadScreen.tsx:72-82 | From period 11 on, the upload has ended with progress 100, and further periods change nothing |
| SampleUpload.UploadRun | src/screens/SampleUploadScreen.tsx:68-82 | After an accepted submit and k periods, progress is min(10 * k, 100), uploading lasts exactly through period 10, the status line shown is "Preprocessing..." for k < 5, "Analyzing with AI..." for 5 <= k < 10 and "Complete!" at k = 10, and from k = 11 on no status line is shown |
| SampleUpload.RunTicksInv | src/screens/SampleUploadScreen.tsx:72-82 | Any number of timer periods keeps progress a multiple of 10 within 0..100 and leaves metadata and file unchanged |
| SampleUpload.HasFile | src/screens/SampleUploadScreen.tsx:58 | The file guard `!selectedFile` fails for no file or an empty name; both names the dialog offers pass |
| SampleUpload.MissingRequired | src/screens/SampleUploadScreen.tsx:63 | The field guard: name, latitude, longitude or depth is the empty string |
| SampleUpload.Inv | src/screens/SampleUploadScreen.tsx:40-42 | Progress is a multiple of 10 within 0..100 and the selected file, if any, is one of the dialog's two names |
| SampleUpload.RunTicks | src/screens/SampleUploadScreen.tsx:72-82 | The interval over k periods: each period applies the updater while uploading runs and nothing after it has been cleared |
| SampleUpload.StatusLabel | src/screens/SampleUploadScreen.tsx:250-253 | "Preprocessing..." below 50, "Analyzing with AI..." from 50 to below 100, "Complete!" otherwise |
| SampleUpload.StatusLine | src/screens/SampleUploadScreen.tsx:236-255 | The status label is rendered only while uploading |
| SampleUpload.UploadDisabled | src/screens/SampleUploadScreen.tsx:260-263 | The submit button is disabled with no file or while uploading |
| SampleUpload.UploadButtonLabel | src/screens/SampleUploadScreen.tsx:265-267 | "Processing..." while uploading, "Start Analysis" otherwise |
| SampleUpload.UploadForm.constructor | src/screens/SampleUploadScreen.tsx:29-42 | The component's fields start as the initial state |
| SampleUpload.UploadForm.PickFile | src/screens/SampleUploadScreen.tsx:44-55 | The file field becomes the chosen name, or stays on Cancel, as AfterPick says |
| SampleUpload.UploadForm.UpdateField | src/screens/SampleUploadScreen.tsx:85-87 | The metadata field becomes the new value, all other fields and the upload state stay |
| SampleUpload.UploadForm.Submit | src/screens/SampleUploadScreen.tsx:57-70 | The fields and the returned alert are exactly those AfterSubmit gives, and the invariant is kept |
| SampleUpload.UploadForm.Tick | src/screens/SampleUploadScreen.tsx:72-82 | The fields and the returned alert are exactly those AfterTick gives, and the invariant is kept |
| Onboarding.SlideDeck | src/components/OnboardingScreen.tsx:25-47 | The carousel has exactly three slides with distinct identifiers |
| Onboarding.NextAction | src/components/OnboardingScreen.tsx:60-66 | "Next" requests index current + 1, which is below the slide count, and fires completion exactly when current is at or past the last slide |
| Onboarding.ButtonLabel | src/components/OnboardingScreen.tsx:201 | "Get Started" when the index equals the last slide's, "Next" otherwise |
| Onboarding.SkipVisible | src/components/OnboardingScreen.tsx:205 | Skip is rendered when the index is below the last slide's |
| Onboarding.PressNext | src/components/OnboardingScreen.tsx:60-66 | k presses of "Next" from slide i, each scroll request answered by the scroll-end event with the requested index |
| Onboarding.LabelMatchesAction | src/components/OnboardingScreen.tsx:198-209 | On a slide of the carousel the label is "Get Started" exactly on the last slide, exactly when "Next" completes; "Skip" is shown exactly when the label is "Next" |
| Onboarding.PressNextWalk | src/components/OnboardingScreen.tsx:60-66 | Pressing "Next" k times from slide i, each scroll reported back, stands on slide i + k while that is a slide and completes after; it never stands past the last slide |
| Onboarding.Pager.constructor | src/components/OnboardingScreen.tsx:54 | The carousel starts at index 0 |
| Onboarding.Pager.ScrollTo | src/components/OnboardingScreen.tsx:60-66 | Returns NextAction of the current index: off the last slide it requests index current + 1, otherwise it fires completion; it changes no state |
| Onboarding.Pager.Skip | src/components/OnboardingScreen.tsx:205-209 | Skip, offered off the last slide, fires completion |
| Onboarding.Pager.MomentumScrollEnd | src/components/OnboardingScreen.tsx:188-191 | The scroll-end event sets the current index to the reported slide |
| AppShell.Select | App.tsx:28-51 | Splash exactly while loading; onboarding exactly when loaded and not yet onboarded; main exactly when loaded and onboarded |
| AppShell.Apply | App.tsx:17-26 | The timer event clears isLoading, the completion event sets hasSeenOnboarding; nothing else changes |
| AppShell.Run | App.tsx:17-26 | The flags after a sequence of events, applied in order |
| AppShell.ApplyProperties | App.tsx:15-26 | Each event is idempotent, the two commute, neither clears a set flag, and neither moves the shell to an earlier screen |
| AppShell.RunMonotone | App.tsx:15-26 | Over any event sequence, cleared loading stays cleared, a set onboarding flag stays set, each event that occurs leaves its flag set, and the screen only moves forward |
| AppShell.SplashUntilTimer | App.tsx:17-19 | Until the timer event occurs, the loading flag keeps its value |
| AppShell.MainForever | App.tsx:28-51 | From launch, splash shows until the timer fires; once both events have happened, every later render selects the main navigator |
| AppShell.App.constructor | App.tsx:12-13 | The root starts loading and not onboarded, showing the splash |
| AppShell.App.InitTimerFired | App.tsx:15-22 | The timer clears isLoading and leaves hasSeenOnboarding alone |
| AppShell.App.HandleOnboardingComplete | App.tsx:24-26 | The completion handler sets hasSeenOnboarding and leaves isLoading alone |

## Left out

- Styles, colour tables and layout widths: constant presentation data.
- Slide icons and gradients, and all `scrollX.interpolate` animation values: presentation and floating-point animation.
- The index computed as `Math.round(offset / width)` on scroll end is scroll geometry. The event is modelled as delivering any natural number.
- Real timer durations (500 ms, 3000 ms) are event-loop effects. Timer firings are discrete events.
- The shell's `clearTimeout` on unmount (`App.tsx:21`) is a teardown effect, and the root component is never unmounted in this model.
- Leaving the upload screen mid-upload is not modelled. The upload screen has no unmount cleanup: its interval is cleared only by the finishing tick (`SampleUploadScreen.tsx:75`), so it keeps firing after the screen is gone.
- `Alert.alert` dialogs: they are returned as values. The file dialog is modelled as the button the user presses in it.
- The default date, `new Date().toISOString().split('T')[0]`, reads the clock and keeps only the date part. It is a parameter of `Initial` and of the form's constructor.
- SampleUpload.AfterSubmit requires that no upload is running, because the button is disabled then. Calling `handleUpload` during an upload would start a second interval, and the model does not cover that.
- The file picker's display text and the progress-bar width are presentation.
- The results, dashboard and profile screens, the splash animation, the navigator configuration and the shape-only type declarations are not part of this model. They carry no behaviour beyond rendering mock data.
