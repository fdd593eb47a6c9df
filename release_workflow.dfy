/**
 * The event handlers of the release page as transitions on `State`, the
 * events a user can raise, which of them the rendered screen offers, and
 * the state reached after a sequence of events.
 */
module ReleaseWorkflow {
  import opened ReleaseState

  const AudioPrefix: string := "audio/"
  const ImagePrefix: string := "image/"

  // The toasts the page raises, with the page's own texts.

  function AudioLoaded(fileName: string): Toast {
    Toast(Default, "Аудио загружено", fileName)
  }

  const AudioRejected: Toast :=
    Toast(Destructive, "Ошибка", "Пожалуйста, выберите аудио файл")

  function CoverLoaded(fileName: string): Toast {
    Toast(Default, "Обложка загружена", fileName)
  }

  const CoverRejected: Toast :=
    Toast(Destructive, "Ошибка", "Пожалуйста, выберите изображение")

  const FieldsMissing: Toast :=
    Toast(Destructive, "Заполните все поля", "Загрузите аудио, обложку и укажите название трека")

  const ReleaseReady: Toast :=
    Toast(Default, "Релиз готов!", "Ваш трек готов к публикации")

  /**
   * `handleAudioUpload`: `files` is the input's file list (empty when the
   * dialog was dismissed); only its first element is looked at.
   */
  function AudioUpload(s: State, files: seq<File>): State {
    if files == [] then s
    else if StartsWith(AudioPrefix, files[0].mimeType) then
      s.(audioFile := Some(files[0]), toasts := s.toasts + [AudioLoaded(files[0].name)])
    else
      s.(toasts := s.toasts + [AudioRejected])
  }

  /**
   * `handleCoverUpload`. Accepting a cover only starts the decode of its
   * data URI; `coverPreview` is set later, by `DecodeComplete`.
   */
  function CoverUpload(s: State, files: seq<File>): State {
    if files == [] then s
    else if StartsWith(ImagePrefix, files[0].mimeType) then
      s.(coverFile := Some(files[0]), toasts := s.toasts + [CoverLoaded(files[0].name)])
    else
      s.(toasts := s.toasts + [CoverRejected])
  }

  /** The guard `!audioFile || !coverFile || !trackName`, negated. */
  predicate CanGenerate(s: State) {
    s.audioFile.Some? && s.coverFile.Some? && s.trackName != ""
  }

  /** `handleGenerateRelease`. */
  function GenerateRelease(s: State): State {
    if !CanGenerate(s) then
      s.(toasts := s.toasts + [FieldsMissing])
    else
      s.(showPreview := true, toasts := s.toasts + [ReleaseReady])
  }

  /** The preview's back button. */
  function Back(s: State): State {
    s.(showPreview := false)
  }

  /** The header's tab buttons and the releases screen's upload button. */
  function SelectTab(s: State, tab: Tab): State {
    s.(activeTab := tab)
  }

  function EditTrackName(s: State, value: string): State {
    s.(trackName := value)
  }

  function EditArtist(s: State, value: string): State {
    s.(artist := value)
  }

  function EditTrackLyrics(s: State, value: string): State {
    s.(trackLyrics := value)
  }

  /** The `onloadend` callback of a cover decode, whenever it arrives. */
  function DecodeComplete(s: State, dataUri: string): State {
    s.(coverPreview := dataUri)
  }

  datatype Event =
    | ChooseAudio(files: seq<File>)
    | ChooseCover(files: seq<File>)
    | PressGenerate
    | PressBack
    | ClickTab(tab: Tab)
    | TypeTrackName(value: string)
    | TypeArtist(value: string)
    | TypeTrackLyrics(value: string)
    | CoverDecoded(dataUri: string)

  /** One event handled; every handler raises at most one toast and never drops one. */
  function Step(s: State, e: Event): (t: State)
    ensures s.toasts <= t.toasts && |t.toasts| <= |s.toasts| + 1
  {
    match e
    case ChooseAudio(files) => AudioUpload(s, files)
    case ChooseCover(files) => CoverUpload(s, files)
    case PressGenerate => GenerateRelease(s)
    case PressBack => Back(s)
    case ClickTab(tab) => SelectTab(s, tab)
    case TypeTrackName(v) => EditTrackName(s, v)
    case TypeArtist(v) => EditArtist(s, v)
    case TypeTrackLyrics(v) => EditTrackLyrics(s, v)
    case CoverDecoded(uri) => DecodeComplete(s, uri)
  }

  /**
   * Whether the screen rendered in `s` offers the control that raises `e`:
   * the inputs and the generate button live in the upload form, the back
   * button in the preview, the tab buttons in the always-rendered header;
   * a decode may complete at any time.
   */
  predicate Enabled(s: State, e: Event) {
    match e
    case ChooseAudio(_) => FormRendered(s.activeTab, s.showPreview)
    case ChooseCover(_) => FormRendered(s.activeTab, s.showPreview)
    case PressGenerate => FormRendered(s.activeTab, s.showPreview)
    case TypeTrackName(_) => FormRendered(s.activeTab, s.showPreview)
    case TypeArtist(_) => FormRendered(s.activeTab, s.showPreview)
    case TypeTrackLyrics(_) => FormRendered(s.activeTab, s.showPreview)
    case PressBack => PreviewRendered(s.activeTab, s.showPreview)
    case ClickTab(_) => true
    case CoverDecoded(_) => true
  }

  /** The state after handling `events` in order; the toast log only grows, by at most one per event. */
  function Run(s: State, events: seq<Event>): (t: State)
    ensures s.toasts <= t.toasts && |t.toasts| <= |s.toasts| + |events|
    decreases |events|
  {
    if events == [] then s else Run(Step(s, events[0]), events[1..])
  }

  /** Every event of the sequence is offered by the screen it arrives on. */
  predicate AllEnabled(s: State, events: seq<Event>)
    decreases |events|
  {
    events == [] || (Enabled(s, events[0]) && AllEnabled(Step(s, events[0]), events[1..]))
  }
}
