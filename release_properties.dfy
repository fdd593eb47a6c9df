/**
 * What the release page promises about its handlers: which selections are
 * accepted, what a rejection leaves alone, when the preview opens, what
 * back and the tabs preserve, and the invariant every reachable state keeps.
 */
module ReleaseProperties {
  import opened ReleaseState
  import opened ReleaseWorkflow

  /** `t` differs from `s` at most in its toast log. */
  predicate OnlyToastsChanged(s: State, t: State) {
    t.(toasts := s.toasts) == s
  }

  // ----- File selection -----

  /** A dismissed file dialog changes nothing and raises no toast, on either input. */
  lemma NoFileChangesNothing(s: State)
    ensures AudioUpload(s, []) == s
    ensures CoverUpload(s, []) == s
  {
  }

  /** Only the first entry of the input's file list is looked at. */
  lemma OnlyFirstFileCounts(s: State, files: seq<File>)
    requires files != []
    ensures AudioUpload(s, files) == AudioUpload(s, [files[0]])
    ensures CoverUpload(s, files) == CoverUpload(s, [files[0]])
  {
  }

  /**
   * An audio file is taken, with a success toast naming it, exactly when
   * its MIME type starts with "audio/"; otherwise nothing but the log
   * changes (the previous audio file stays) and one error toast is raised.
   * In no case is anything besides `audioFile` and the log touched.
   */
  lemma AudioSelection(s: State, files: seq<File>)
    requires files != []
    ensures var t := AudioUpload(s, files);
      (t.audioFile == Some(files[0]) && t.toasts == s.toasts + [AudioLoaded(files[0].name)])
      <==> StartsWith(AudioPrefix, files[0].mimeType)
    ensures var t := AudioUpload(s, files);
      !StartsWith(AudioPrefix, files[0].mimeType) ==>
        OnlyToastsChanged(s, t) && t.toasts == s.toasts + [AudioRejected]
    ensures var t := AudioUpload(s, files);
      t.(audioFile := s.audioFile, toasts := s.toasts) == s
  {
    var t := AudioUpload(s, files);
    if !StartsWith(AudioPrefix, files[0].mimeType) {
      assert t.toasts[|s.toasts|] == AudioRejected != AudioLoaded(files[0].name);
    }
  }

  /**
   * The cover counterpart of `AudioSelection`, with "image/". Accepting a
   * cover leaves `coverPreview` as it was: only a later decode sets it.
   */
  lemma CoverSelection(s: State, files: seq<File>)
    requires files != []
    ensures var t := CoverUpload(s, files);
      (t.coverFile == Some(files[0]) && t.toasts == s.toasts + [CoverLoaded(files[0].name)])
      <==> StartsWith(ImagePrefix, files[0].mimeType)
    ensures var t := CoverUpload(s, files);
      !StartsWith(ImagePrefix, files[0].mimeType) ==>
        OnlyToastsChanged(s, t) && t.toasts == s.toasts + [CoverRejected]
    ensures var t := CoverUpload(s, files);
      t.(coverFile := s.coverFile, toasts := s.toasts) == s && t.coverPreview == s.coverPreview
  {
    var t := CoverUpload(s, files);
    if !StartsWith(ImagePrefix, files[0].mimeType) {
      assert t.toasts[|s.toasts|] == CoverRejected != CoverLoaded(files[0].name);
    }
  }

  /** `DecodeComplete` sets the preview image and nothing else, without a toast. */
  lemma DecodeSetsOnlyPreview(s: State, dataUri: string)
    ensures var t := DecodeComplete(s, dataUri);
      t.coverPreview == dataUri && t.(coverPreview := s.coverPreview) == s
  {
  }

  // ----- Release generation and back -----

  /**
   * With audio, cover or title missing, generation changes nothing but the
   * log and raises one error; otherwise it opens the preview, changes
   * nothing else and raises one success toast.
   */
  lemma GenerateGuard(s: State)
    ensures var t := GenerateRelease(s);
      !CanGenerate(s) ==> OnlyToastsChanged(s, t) && t.toasts == s.toasts + [FieldsMissing]
    ensures var t := GenerateRelease(s);
      CanGenerate(s) ==>
        t.showPreview && t.(showPreview := s.showPreview, toasts := s.toasts) == s
        && t.toasts == s.toasts + [ReleaseReady]
  {
  }

  /** From the form, the preview opens exactly when audio, cover and a non-empty title exist. */
  lemma PreviewOpensIffReady(s: State)
    requires !s.showPreview
    ensures GenerateRelease(s).showPreview <==> CanGenerate(s)
  {
  }

  /** The title is not trimmed: a title made only of blanks, tabs and newlines passes the guard. */
  lemma BlankTitlePasses(s: State)
    requires s.audioFile.Some? && s.coverFile.Some?
    requires s.trackName != [] && forall i | 0 <= i < |s.trackName| :: s.trackName[i] in " \t\n"
    ensures GenerateRelease(s).showPreview
  {
  }

  /** Back closes the preview, keeps every selection and field, and raises no toast. */
  lemma BackKeepsEverything(s: State)
    ensures var t := Back(s);
      !t.showPreview && t.(showPreview := s.showPreview) == s
  {
  }

  /** Generating from the form and going back restores the state, apart from the log. */
  lemma GenerateThenBack(s: State)
    requires !s.showPreview
    ensures Back(GenerateRelease(s)).(toasts := s.toasts) == s
  {
  }

  // ----- Tabs and text fields -----

  /** A tab switch changes only the active tab, the preview flag included. */
  lemma SelectTabOnlyChangesTab(s: State, tab: Tab)
    ensures var t := SelectTab(s, tab);
      t.activeTab == tab && t.(activeTab := s.activeTab) == s
  {
  }

  /** Leaving a tab and coming back restores the state and the screen shown. */
  lemma TabRoundTrip(s: State, tab: Tab)
    ensures SelectTab(SelectTab(s, tab), s.activeTab) == s
    ensures var t := SelectTab(SelectTab(s, tab), s.activeTab);
      ViewShown(t.activeTab, t.showPreview) == ViewShown(s.activeTab, s.showPreview)
  {
  }

  /** Each text edit sets its own field to the typed value and changes nothing else. */
  lemma EditsOnlyChangeTheirField(s: State, value: string)
    ensures EditTrackName(s, value).trackName == value
    ensures EditTrackName(s, value).(trackName := s.trackName) == s
    ensures EditArtist(s, value).artist == value
    ensures EditArtist(s, value).(artist := s.artist) == s
    ensures EditTrackLyrics(s, value).trackLyrics == value
    ensures EditTrackLyrics(s, value).(trackLyrics := s.trackLyrics) == s
  {
  }

  /** The last keystroke wins. */
  lemma LastEditWins(s: State, first: string, second: string)
    ensures EditTrackName(EditTrackName(s, first), second) == EditTrackName(s, second)
    ensures EditArtist(EditArtist(s, first), second) == EditArtist(s, second)
    ensures EditTrackLyrics(EditTrackLyrics(s, first), second) == EditTrackLyrics(s, second)
  {
  }

  // ----- Views -----

  /** For every tab and preview flag exactly one of the three blocks renders. */
  lemma ExactlyOneViewRendered(tab: Tab, showPreview: bool)
    ensures FormRendered(tab, showPreview) || PreviewRendered(tab, showPreview) || ReleasesRendered(tab)
    ensures !(FormRendered(tab, showPreview) && PreviewRendered(tab, showPreview))
    ensures !(FormRendered(tab, showPreview) && ReleasesRendered(tab))
    ensures !(PreviewRendered(tab, showPreview) && ReleasesRendered(tab))
  {
  }

  // ----- Sequences of events -----

  /** Handling `a` and then `b` is handling `a + b`. */
  lemma {:induction false} RunAppend(s: State, a: seq<Event>, b: seq<Event>)
    ensures Run(s, a + b) == Run(Run(s, a), b)
    decreases |a|
  {
    if a != [] {
      assert (a + b)[0] == a[0];
      assert (a + b)[1..] == a[1..] + b;
      RunAppend(Step(s, a[0]), a[1..], b);
    } else {
      assert a + b == b;
    }
  }

  /**
   * What every reachable state satisfies: a held audio file has an audio
   * type, a held cover an image type, and an open preview has audio, a
   * cover and a non-empty title.
   */
  predicate Consistent(s: State) {
    && (s.audioFile.Some? ==> StartsWith(AudioPrefix, s.audioFile.value.mimeType))
    && (s.coverFile.Some? ==> StartsWith(ImagePrefix, s.coverFile.value.mimeType))
    && (s.showPreview ==> CanGenerate(s))
  }

  lemma InitialConsistent()
    ensures Consistent(Initial)
  {
  }

  lemma StepPreservesConsistent(s: State, e: Event)
    requires Consistent(s) && Enabled(s, e)
    ensures Consistent(Step(s, e))
  {
  }

  lemma {:induction false} RunPreservesConsistent(s: State, events: seq<Event>)
    requires Consistent(s) && AllEnabled(s, events)
    ensures Consistent(Run(s, events))
    decreases |events|
  {
    if events != [] {
      StepPreservesConsistent(s, events[0]);
      RunPreservesConsistent(Step(s, events[0]), events[1..]);
    }
  }

  /** Every state the page can reach from its initial state is consistent. */
  lemma ReachableConsistent(events: seq<Event>)
    requires AllEnabled(Initial, events)
    ensures Consistent(Run(Initial, events))
  {
    InitialConsistent();
    RunPreservesConsistent(Initial, events);
  }

  /**
   * The guard is checked once; the preview stays consistent only because
   * the title input is not rendered while it is shown.
   */
  lemma HiddenFormProtectsPreview(s: State)
    requires Consistent(s) && s.showPreview
    ensures !Enabled(s, TypeTrackName(""))
    ensures !Consistent(EditTrackName(s, ""))
  {
  }

  // ----- Scenarios -----

  const Song: File := File("song.mp3", "audio/mpeg", 4_000_000)
  const CoverImage: File := File("cover.png", "image/png", 300_000)

  /** Handling one event and then the rest. */
  lemma RunCons(s: State, e: Event, rest: seq<Event>)
    ensures Run(s, [e] + rest) == Run(Step(s, e), rest)
    ensures AllEnabled(s, [e] + rest) <==> Enabled(s, e) && AllEnabled(Step(s, e), rest)
  {
  }

  /** The events of the scenario below, up to the press of generate. */
  function ScenarioEvents(uri: string): seq<Event> {
    [ChooseAudio([Song]), ChooseCover([CoverImage]), CoverDecoded(uri),
     TypeTrackName("My Track"), PressGenerate]
  }

  /** The state the scenario below reaches, written out. */
  function ScenarioState(uri: string): State {
    Initial.(audioFile := Some(Song), coverFile := Some(CoverImage), coverPreview := uri,
             trackName := "My Track", showPreview := true,
             toasts := [AudioLoaded("song.mp3"), CoverLoaded("cover.png"), ReleaseReady])
  }

  /**
   * Select an mp3 and a png, let the cover decode, type a title, generate:
   * every step is offered by the screen it happens on, and the preview
   * shows with the title and the decoded cover, after one success toast
   * per step that raises one.
   */
  lemma ReleaseScenario(uri: string)
    ensures AllEnabled(Initial, ScenarioEvents(uri))
    ensures Run(Initial, ScenarioEvents(uri)) == ScenarioState(uri)
    ensures ViewShown(ScenarioState(uri).activeTab, ScenarioState(uri).showPreview) == ReleasePreview
  {
    assert StartsWith(AudioPrefix, Song.mimeType);
    assert StartsWith(ImagePrefix, CoverImage.mimeType);
    var s1 := Initial.(audioFile := Some(Song), toasts := [AudioLoaded("song.mp3")]);
    var s2 := s1.(coverFile := Some(CoverImage), toasts := s1.toasts + [CoverLoaded("cover.png")]);
    var s3 := s2.(coverPreview := uri);
    var s4 := s3.(trackName := "My Track");
    assert Step(Initial, ChooseAudio([Song])) == s1;
    assert Step(s1, ChooseCover([CoverImage])) == s2;
    assert Step(s2, CoverDecoded(uri)) == s3;
    assert Step(s3, TypeTrackName("My Track")) == s4;
    assert Step(s4, PressGenerate) == ScenarioState(uri);
    RunCons(s4, PressGenerate, []);
    RunCons(s3, TypeTrackName("My Track"), [PressGenerate]);
    RunCons(s2, CoverDecoded(uri), [TypeTrackName("My Track"), PressGenerate]);
    RunCons(s1, ChooseCover([CoverImage]), [CoverDecoded(uri), TypeTrackName("My Track"), PressGenerate]);
    RunCons(Initial, ChooseAudio([Song]),
            [ChooseCover([CoverImage]), CoverDecoded(uri), TypeTrackName("My Track"), PressGenerate]);
  }

  /** Going back after `ReleaseScenario` returns to the form with every selection and field kept. */
  lemma BackAfterReleaseScenario(uri: string)
    ensures var events := ScenarioEvents(uri) + [PressBack];
      var b := Run(Initial, events);
      && AllEnabled(Initial, events)
      && ViewShown(b.activeTab, b.showPreview) == UploadForm
      && b == ScenarioState(uri).(showPreview := false)
  {
    ReleaseScenario(uri);
    RunAppend(Initial, ScenarioEvents(uri), [PressBack]);
    AllEnabledAppend(Initial, ScenarioEvents(uri), [PressBack]);
    RunCons(ScenarioState(uri), PressBack, []);
  }

  /** `a + b` is offered throughout exactly when `a` is and then `b` is after `a`. */
  lemma {:induction false} AllEnabledAppend(s: State, a: seq<Event>, b: seq<Event>)
    ensures AllEnabled(s, a + b) <==> AllEnabled(s, a) && AllEnabled(Run(s, a), b)
    decreases |a|
  {
    if a != [] {
      assert (a + b)[0] == a[0];
      assert (a + b)[1..] == a[1..] + b;
      AllEnabledAppend(Step(s, a[0]), a[1..], b);
    } else {
      assert a + b == b;
    }
  }

  /** Generating with nothing selected raises the one error and stays on the form. */
  lemma MissingAudioScenario()
    ensures var s := Run(Initial, [PressGenerate]);
      && s.toasts == [FieldsMissing] && s.toasts[0].title == "Заполните все поля"
      && !s.showPreview
      && ViewShown(s.activeTab, s.showPreview) == UploadForm
  {
  }

  /**
   * The guard tests the cover file, not its decoded image: the preview can
   * open before any decode has completed, showing no cover.
   */
  lemma PreviewBeforeDecode()
    ensures var s := Run(Initial, [ChooseAudio([Song]), ChooseCover([CoverImage]),
                                   TypeTrackName("My Track"), PressGenerate]);
      s.showPreview && s.coverPreview == ""
  {
    assert StartsWith(AudioPrefix, Song.mimeType);
    assert StartsWith(ImagePrefix, CoverImage.mimeType);
    var s1 := Step(Initial, ChooseAudio([Song]));
    var s2 := Step(s1, ChooseCover([CoverImage]));
    var s3 := Step(s2, TypeTrackName("My Track"));
    RunCons(s3, PressGenerate, []);
    RunCons(s2, TypeTrackName("My Track"), [PressGenerate]);
    RunCons(s1, ChooseCover([CoverImage]), [TypeTrackName("My Track"), PressGenerate]);
    RunCons(Initial, ChooseAudio([Song]), [ChooseCover([CoverImage]), TypeTrackName("My Track"), PressGenerate]);
  }

  /**
   * Decodes are not tied to the selection that started them: when the
   * decode of an earlier cover finishes last, its image is shown beside the
   * later cover's file.
   */
  lemma StaleDecodeWins(s: State, first: File, second: File, firstUri: string, secondUri: string)
    requires StartsWith(ImagePrefix, first.mimeType) && StartsWith(ImagePrefix, second.mimeType)
    ensures var t := Run(s, [ChooseCover([first]), ChooseCover([second]),
                             CoverDecoded(secondUri), CoverDecoded(firstUri)]);
      t.coverFile == Some(second) && t.coverPreview == firstUri
  {
    var s1 := Step(s, ChooseCover([first]));
    var s2 := Step(s1, ChooseCover([second]));
    var s3 := Step(s2, CoverDecoded(secondUri));
    RunCons(s3, CoverDecoded(firstUri), []);
    RunCons(s2, CoverDecoded(secondUri), [CoverDecoded(firstUri)]);
    RunCons(s1, ChooseCover([second]), [CoverDecoded(secondUri), CoverDecoded(firstUri)]);
    RunCons(s, ChooseCover([first]), [ChooseCover([second]), CoverDecoded(secondUri), CoverDecoded(firstUri)]);
  }
}
