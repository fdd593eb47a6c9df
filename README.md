# Release-preparation page: a verified model of its workflow

The repository is a single React page, `Index`, on which a musician picks an
audio file and a cover image, types a title, an artist and lyrics, and
generates a release preview with share actions. Its only logic is a small
state machine held in eight `useState` hooks and driven by event handlers.
This project models that state machine in Dafny and proves what it does.

- `release_state.dfy` (module `ReleaseState`): the page state as a value
  (`State`, one field per hook plus the log of toasts raised so far), the
  initial state, the `startsWith` prefix test (`StartsWith`, defined one
  character at a time and proved to be the prefix test) and the choice of
  screen (`ViewShown`, related by its contract to the three JSX conditions).
- `release_workflow.dfy` (module `ReleaseWorkflow`): each handler as a
  transition on `State` (`AudioUpload`, `CoverUpload`, `GenerateRelease`,
  `Back`, `SelectTab`, the three field edits and `DecodeComplete`), the
  page's toast texts, the events a user can raise (`Event`, `Step`), which
  of them the rendered screen offers (`Enabled`), and runs of several events
  (`Run`, `AllEnabled`).
- `release_properties.dfy` (module `ReleaseProperties`): the properties of
  each transition, the invariant every reachable state keeps (`Consistent`),
  and five scenarios: a full release, going back from it, generation with
  nothing selected, a preview opened before the cover decoded, and a stale
  decode.
- `index_component.dfy` (module `IndexComponent`): the component as a class
  `Workflow` with one field per hook and one method per handler; each
  method's contract ties the new fields to the transition of the same name.

Toasts are an appended log of `Toast(variant, title, description)` entries;
a toast without `variant` in the source is `Default`, the error ones are
`Destructive`. A file is `File(name, mimeType, size)`. A handler receives
the input's file list as a sequence; a dismissed dialog (no list, or an
empty one) is the empty sequence, and only the first entry is looked at.

The invariant proved over every run of offered events from the initial
state: a held audio file has an `audio/` type, a held cover an `image/`
type, and while the preview is open audio, a cover and a non-empty title
exist. It rests on which controls each screen renders: the title input is
not rendered while the preview is shown (`HiddenFormProtectsPreview`).

The cover decode completes through its own event, `CoverDecoded`, which may
arrive at any time and always overwrites `coverPreview`, as the source's
callback does; so an earlier cover's decode finishing last leaves its image
beside the later cover's file (`StaleDecodeWins`), and the preview may open
before any decode finished (`PreviewBeforeDecode`). The generate guard is
`!trackName`, so a non-empty title made only of blanks, tabs and newlines
passes (`BlankTitlePasses`).

## Model

| member | source | states |
|---|---|---|
| `ReleaseState.StartsWith` | src/pages/Index.tsx:24 | the character-by-character comparison holds exactly when the prefix is no longer than the string and equals its first characters |
| `ReleaseState.ViewShown` | src/pages/Index.tsx:122-340 | the form is shown iff the tab is upload and the preview is closed, the preview iff the tab is upload and the preview is open, the releases list iff the tab is releases |
| `ReleaseWorkflow.Step` | src/pages/Index.tsx:21-350 | every handler keeps the earlier toasts as a prefix of the log and raises at most one |
| `ReleaseWorkflow.Run` | src/pages/Index.tsx:21-78 | over a run of events the toast log only grows, by at most one toast per event |
| `ReleaseProperties.NoFileChangesNothing` | src/pages/Index.tsx:21-42 | with no file chosen neither upload handler changes any field or raises a toast |
| `ReleaseProperties.OnlyFirstFileCounts` | src/pages/Index.tsx:22 | both upload handlers depend only on the first file of the list |
| `ReleaseProperties.AudioSelection` | src/pages/Index.tsx:24-35 | the audio file is set and a success toast naming it raised iff its type starts with "audio/"; otherwise only one error toast is added and the previous audio file stays; nothing but `audioFile` and the log ever changes |
| `ReleaseProperties.CoverSelection` | src/pages/Index.tsx:43-59 | the cover is set and a success toast naming it raised iff its type starts with "image/"; otherwise only one error toast is added; `coverPreview` is never changed by the selection itself |
| `ReleaseProperties.DecodeSetsOnlyPreview` | src/pages/Index.tsx:46-48 | a completed decode sets `coverPreview` to its data URI and changes nothing else |
| `ReleaseProperties.GenerateGuard` | src/pages/Index.tsx:64-78 | with audio, cover or title missing only one "fill all fields" error is added; otherwise the preview opens, one success toast is added and nothing else changes |
| `ReleaseProperties.PreviewOpensIffReady` | src/pages/Index.tsx:65-73 | from the form, generation opens the preview exactly when audio, cover and a non-empty title exist |
| `ReleaseProperties.BlankTitlePasses` | src/pages/Index.tsx:65 | with audio and a cover held, any non-empty title of blanks, tabs and newlines passes the guard, which is not trimmed |
| `ReleaseProperties.BackKeepsEverything` | src/pages/Index.tsx:271 | back closes the preview and keeps every other field and the log |
| `ReleaseProperties.GenerateThenBack` | src/pages/Index.tsx:64-78 | generating from the form and going back restores every field except the log |
| `ReleaseProperties.SelectTabOnlyChangesTab` | src/pages/Index.tsx:102 | a tab switch sets the tab and changes nothing else, the preview flag included |
| `ReleaseProperties.TabRoundTrip` | src/pages/Index.tsx:102-110 | switching away and back restores the whole state and the screen shown |
| `ReleaseProperties.EditsOnlyChangeTheirField` | src/pages/Index.tsx:225-246 | each text edit sets its own field to the typed value and nothing else |
| `ReleaseProperties.LastEditWins` | src/pages/Index.tsx:225 | two edits of a field in a row equal the second alone |
| `ReleaseProperties.ExactlyOneViewRendered` | src/pages/Index.tsx:122-340 | for every tab and preview flag exactly one of the three body blocks renders |
| `ReleaseProperties.RunAppend` | src/pages/Index.tsx:21-78 | handling two runs of events one after the other equals handling their concatenation |
| `ReleaseProperties.AllEnabledAppend` | src/pages/Index.tsx:122-350 | a concatenated run is offered throughout iff its first part is and the second is offered after it |
| `ReleaseProperties.InitialConsistent` | src/pages/Index.tsx:11-18 | the initial state satisfies the invariant |
| `ReleaseProperties.StepPreservesConsistent` | src/pages/Index.tsx:21-350 | every event the rendered screen offers keeps the invariant |
| `ReleaseProperties.RunPreservesConsistent` | src/pages/Index.tsx:21-350 | every run of offered events keeps the invariant |
| `ReleaseProperties.ReachableConsistent` | src/pages/Index.tsx:64-78 | every state reachable from the first render holds only audio-typed audio, image-typed covers, and an open preview only with audio, cover and title |
| `ReleaseProperties.HiddenFormProtectsPreview` | src/pages/Index.tsx:122-225 | while the preview is open the title input is not offered, and clearing the title there would break the invariant |
| `ReleaseProperties.RunCons` | src/pages/Index.tsx:21-78 | a run starting with one event is that event's step followed by the rest |
| `ReleaseProperties.ReleaseScenario` | src/pages/Index.tsx:21-78 | picking an mp3 and a png, decoding, typing "My Track" and generating is offered step by step and reaches the preview with those selections and three success toasts |
| `ReleaseProperties.BackAfterReleaseScenario` | src/pages/Index.tsx:271 | going back after that scenario shows the form, and the state is the preview state with only the preview flag cleared: every selection, field and toast kept |
| `ReleaseProperties.MissingAudioScenario` | src/pages/Index.tsx:65-71 | generating with nothing selected raises the single "fill all fields" error and stays on the form |
| `ReleaseProperties.PreviewBeforeDecode` | src/pages/Index.tsx:45-73 | the preview can open while `coverPreview` is still empty, since the guard tests the cover file only |
| `ReleaseProperties.StaleDecodeWins` | src/pages/Index.tsx:44-49 | when an earlier cover's decode completes last its image stays beside the later cover's file |
| `IndexComponent.Workflow.constructor` | src/pages/Index.tsx:11-18 | the fields start at the hooks' initial values with an empty toast log |
| `IndexComponent.Workflow.HandleAudioUpload` | src/pages/Index.tsx:21-38 | the new fields are `AudioUpload` of the old ones |
| `IndexComponent.Workflow.HandleCoverUpload` | src/pages/Index.tsx:40-62 | the new fields are `CoverUpload` of the old ones |
| `IndexComponent.Workflow.HandleGenerateRelease` | src/pages/Index.tsx:64-78 | the new fields are `GenerateRelease` of the old ones |
| `IndexComponent.Workflow.HandleBack` | src/pages/Index.tsx:271 | the new fields are `Back` of the old ones |
| `IndexComponent.Workflow.HandleTabClick` | src/pages/Index.tsx:102-110 | the new fields are `SelectTab` of the old ones |
| `IndexComponent.Workflow.HandleTrackNameChange` | src/pages/Index.tsx:225 | the new fields are `EditTrackName` of the old ones |
| `IndexComponent.Workflow.HandleArtistChange` | src/pages/Index.tsx:236 | the new fields are `EditArtist` of the old ones |
| `IndexComponent.Workflow.HandleTrackLyricsChange` | src/pages/Index.tsx:246 | the new fields are `EditTrackLyrics` of the old ones |
| `IndexComponent.Workflow.HandleCoverDecoded` | src/pages/Index.tsx:46-48 | the new fields are `DecodeComplete` of the old ones |
| `IndexComponent.Workflow.Handle` | src/pages/Index.tsx:102-350 | dispatching an event gives `Step` of the old fields, and an offered event keeps a consistent page consistent |

## Left out

- Layout, styling, icons and the UI primitives (`Card`, `Button`, `Input`, `Textarea`, `Label`): presentation only; only which of the three body blocks renders is modelled.
- The toast mechanism (`useToast`): modelled as an appended log, not as something displayed or dismissed.
- `copyToClipboard` (clipboard write of the page address and its toast) and the address field: foreign browser APIs.
- `FileReader` internals: a decode is a single event carrying a string; a failed read, whose result is `null`, is not modelled.
- `URL.createObjectURL` and the audio player: foreign browser API, no state.
- The file-size display in megabytes: floating-point formatting; the "50 MB" limit shown beside it is never enforced, so there is nothing to model.
- The share buttons for external networks: they have no handlers.
- The order of a decode relative to later events: a decode may complete at any time, even when no cover decode is pending, so "the preview eventually shows the chosen cover" is not stated.
- The `accept` filters of the two file inputs: advisory, so any file may reach either handler.
