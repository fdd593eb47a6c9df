/**
 * The `Index` page component as an object: one field per state hook, the
 * toast log the `toast` calls append to, and one method per event handler.
 * Each method changes the fields as the handler's setters do, and its
 * contract ties the new state to the transition of the same name in
 * `ReleaseWorkflow`, whose properties `ReleaseProperties` proves.
 */
module IndexComponent {
  import opened ReleaseState
  import opened ReleaseWorkflow
  import opened ReleaseProperties

  class Workflow {
    var activeTab: Tab
    var audioFile: Option<File>
    var coverFile: Option<File>
    var trackName: string
    var trackLyrics: string
    var artist: string
    var showPreview: bool
    var coverPreview: string
    var toasts: seq<Toast>

    /** The fields as one value. */
    function Snapshot(): State
      reads this
    {
      State(activeTab, audioFile, coverFile, trackName, trackLyrics, artist,
            showPreview, coverPreview, toasts)
    }

    /** The first render: every hook at its initial value, no toast yet. */
    constructor ()
      ensures Snapshot() == Initial
    {
      activeTab := Upload;
      audioFile := None;
      coverFile := None;
      trackName := "";
      trackLyrics := "";
      artist := "";
      showPreview := false;
      coverPreview := "";
      toasts := [];
    }

    /** `handleAudioUpload`, given the input's file list. */
    method HandleAudioUpload(files: seq<File>)
      modifies this
      ensures Snapshot() == AudioUpload(old(Snapshot()), files)
    {
      if |files| > 0 {
        var file := files[0];
        if StartsWith(AudioPrefix, file.mimeType) {
          audioFile := Some(file);
          toasts := toasts + [AudioLoaded(file.name)];
        } else {
          toasts := toasts + [AudioRejected];
        }
      }
    }

    /** `handleCoverUpload`; the decode it starts completes in `HandleCoverDecoded`. */
    method HandleCoverUpload(files: seq<File>)
      modifies this
      ensures Snapshot() == CoverUpload(old(Snapshot()), files)
    {
      if |files| > 0 {
        var file := files[0];
        if StartsWith(ImagePrefix, file.mimeType) {
          coverFile := Some(file);
          toasts := toasts + [CoverLoaded(file.name)];
        } else {
          toasts := toasts + [CoverRejected];
        }
      }
    }

    /** `handleGenerateRelease`. */
    method HandleGenerateRelease()
      modifies this
      ensures Snapshot() == GenerateRelease(old(Snapshot()))
    {
      if audioFile.None? || coverFile.None? || trackName == "" {
        toasts := toasts + [FieldsMissing];
        return;
      }
      showPreview := true;
      toasts := toasts + [ReleaseReady];
    }

    /** The preview's back button. */
    method HandleBack()
      modifies this
      ensures Snapshot() == Back(old(Snapshot()))
    {
      showPreview := false;
    }

    /** A tab button in the header, or the upload button of the releases screen. */
    method HandleTabClick(tab: Tab)
      modifies this
      ensures Snapshot() == SelectTab(old(Snapshot()), tab)
    {
      activeTab := tab;
    }

    method HandleTrackNameChange(value: string)
      modifies this
      ensures Snapshot() == EditTrackName(old(Snapshot()), value)
    {
      trackName := value;
    }

    method HandleArtistChange(value: string)
      modifies this
      ensures Snapshot() == EditArtist(old(Snapshot()), value)
    {
      artist := value;
    }

    method HandleTrackLyricsChange(value: string)
      modifies this
      ensures Snapshot() == EditTrackLyrics(old(Snapshot()), value)
    {
      trackLyrics := value;
    }

    /** The `onloadend` callback of a cover decode. */
    method HandleCoverDecoded(dataUri: string)
      modifies this
      ensures Snapshot() == DecodeComplete(old(Snapshot()), dataUri)
    {
      coverPreview := dataUri;
    }

    /**
     * An event delivered to the handler its control is wired to. When the
     * screen offers the event, a consistent page stays consistent.
     */
    method Handle(e: Event)
      modifies this
      ensures Snapshot() == Step(old(Snapshot()), e)
      ensures Consistent(old(Snapshot())) && Enabled(old(Snapshot()), e) ==> Consistent(Snapshot())
    {
      if Consistent(Snapshot()) && Enabled(Snapshot(), e) {
        StepPreservesConsistent(Snapshot(), e);
      }
      match e
      case ChooseAudio(files) => HandleAudioUpload(files);
      case ChooseCover(files) => HandleCoverUpload(files);
      case PressGenerate => HandleGenerateRelease();
      case PressBack => HandleBack();
      case ClickTab(tab) => HandleTabClick(tab);
      case TypeTrackName(v) => HandleTrackNameChange(v);
      case TypeArtist(v) => HandleArtistChange(v);
      case TypeTrackLyrics(v) => HandleTrackLyricsChange(v);
      case CoverDecoded(uri) => HandleCoverDecoded(uri);
    }
  }
}
