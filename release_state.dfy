/**
 * The state of the release-preparation page (the `Index` component) as a
 * plain value: one field per `useState` hook, plus the log of toast
 * notifications the page has raised. Also the two pure guards the page
 * uses: the MIME-type prefix test and the choice of which screen renders.
 */
module ReleaseState {

  datatype Option<T> = None | Some(value: T)

  /** A browser `File`, reduced to what the page reads from it. */
  datatype File = File(name: string, mimeType: string, size: nat)

  datatype Tab = Upload | Releases

  /** A toast without `variant` is the default (success) kind. */
  datatype Variant = Default | Destructive

  datatype Toast = Toast(variant: Variant, title: string, description: string)

  /** The three mutually exclusive blocks of the page body. */
  datatype View = UploadForm | ReleasePreview | ReleaseList

  datatype State = State(
    activeTab: Tab,
    audioFile: Option<File>,
    coverFile: Option<File>,
    trackName: string,
    trackLyrics: string,
    artist: string,
    showPreview: bool,
    coverPreview: string,
    toasts: seq<Toast>)

  /** The values the hooks are created with. */
  const Initial: State := State(Upload, None, None, "", "", "", false, "", [])

  /**
   * JavaScript's `String.prototype.startsWith`, compared one character
   * at a time; the contract says it is the prefix test.
   */
  function StartsWith(prefix: string, s: string): (r: bool)
    ensures r <==> |prefix| <= |s| && s[..|prefix|] == prefix
  {
    if prefix == [] then true
    else if s == [] then false
    else
      var r := prefix[0] == s[0] && StartsWith(prefix[1..], s[1..]);
      assert r ==> s[..|prefix|] == [s[0]] + s[1..][..|prefix| - 1];
      assert |prefix| <= |s| && s[..|prefix|] == prefix ==> prefix[1..] == s[1..][..|prefix| - 1];
      r
  }

  /** The condition guarding the upload form. */
  predicate FormRendered(tab: Tab, showPreview: bool) {
    tab == Upload && !showPreview
  }

  /** The condition guarding the release preview. */
  predicate PreviewRendered(tab: Tab, showPreview: bool) {
    tab == Upload && showPreview
  }

  /** The condition guarding the (always empty) list of releases. */
  predicate ReleasesRendered(tab: Tab) {
    tab == Releases
  }

  /** The screen the page body shows for a given tab and preview flag. */
  function ViewShown(tab: Tab, showPreview: bool): (v: View)
    ensures v == UploadForm <==> FormRendered(tab, showPreview)
    ensures v == ReleasePreview <==> PreviewRendered(tab, showPreview)
    ensures v == ReleaseList <==> ReleasesRendered(tab)
  {
    if tab == Releases then ReleaseList
    else if showPreview then ReleasePreview
    else UploadForm
  }
}
