/**
 * The download name built by the image toolbar (components/image-actions.tsx, `handleDownload`):
 * `<filename or 'ChatGPT Image'> <stamp>.<ext>`. The fetch, the blob and the DOM link are not
 * modelled; the clock reading is an input.
 */
module ImageActions {
  import opened Wrappers
  import opened Text
  import opened Clock12

  /** With no separator in it, the text after the last '.' is the whole string. */
  lemma AfterLastWithoutSeparator(s: string, c: char)
    requires c !in s
    ensures AfterLast(s, c) == s
  {
  }

  /** What follows the last separator of `p + "." + e` is `e`, when `e` holds no separator. */
  lemma {:induction false} AfterLastOfJoin(p: string, e: string, c: char)
    requires c !in e
    ensures AfterLast(p + [c] + e, c) == e
  {
    var s := p + [c] + e;
    if e != [] {
      assert e[|e| - 1] in e;
      assert s[..|s| - 1] == p + [c] + e[..|e| - 1];
      AfterLastOfJoin(p, e[..|e| - 1], c);
      assert e == e[..|e| - 1] + [e[|e| - 1]];
    }
  }

  /**
   * `(filename || 'image').split('.').pop() || 'png'` as written: the text after the last '.' of
   * the name, or of the word "image" when there is no name; "png" only when that text is empty.
   */
  function ExtensionAsWritten(filename: Option<string>): (ext: string)
    ensures ext != "" && '.' !in ext
    ensures !Truthy(filename) ==> ext == "image"
  {
    var base := if Truthy(filename) then filename.value else "image";
    var tail := AfterLast(base, '.');
    if tail == "" then "png" else tail
  }

  /** Without a file name, or with one that has no '.', the saved extension is a word and not a format. */
  lemma ExtensionAsWrittenIsName(filename: Option<string>)
    requires !Truthy(filename) || '.' !in filename.value
    ensures ExtensionAsWritten(filename) == (if Truthy(filename) then filename.value else "image")
  {
    if Truthy(filename) {
      AfterLastWithoutSeparator(filename.value, '.');
    } else {
      AfterLastWithoutSeparator("image", '.');
    }
  }

  /**
   * The extension the toolbar means to use: the text after the last '.' of the file name when
   * there is a name with a '.' and something after it, else "png".
   */
  function Extension(filename: Option<string>): (ext: string)
    ensures ext != "" && '.' !in ext
    ensures ext != "png" ==> Truthy(filename) && '.' in filename.value
    ensures Truthy(filename) && '.' in filename.value && AfterLast(filename.value, '.') != "" ==>
              ext == AfterLast(filename.value, '.')
  {
    if Truthy(filename) && '.' in filename.value && AfterLast(filename.value, '.') != "" then AfterLast(filename.value, '.')
    else "png"
  }

  /** The two agree on every name that has a '.' in it. */
  lemma ExtensionsAgreeWithSeparator(filename: Option<string>)
    requires Truthy(filename) && '.' in filename.value
    ensures ExtensionAsWritten(filename) == Extension(filename)
  {
  }

  /** `filename || 'ChatGPT Image'`: the text a download name opens with. */
  function Lead(filename: Option<string>): string {
    if Truthy(filename) then filename.value else "ChatGPT Image"
  }

  /** `${filename || 'ChatGPT Image'} ${stamp}.${ext}`. */
  function NameWith(filename: Option<string>, stamp: string, ext: string): string {
    Lead(filename) + " " + (stamp + "." + ext)
  }

  /** The text after the last '.' of a download name is its extension, when that holds no '.'. */
  lemma NameEndsWithExtension(filename: Option<string>, stamp: string, ext: string)
    requires '.' !in ext
    ensures StartsWith(NameWith(filename, stamp, ext), Lead(filename) + " ")
    ensures AfterLast(NameWith(filename, stamp, ext), '.') == ext
  {
    JoinEndsWith(Lead(filename), stamp, ext);
    JoinStartsWith(Lead(filename), stamp + "." + ext);
  }

  lemma JoinEndsWith(lead: string, stamp: string, ext: string)
    requires '.' !in ext
    ensures AfterLast(lead + " " + (stamp + "." + ext), '.') == ext
  {
    var head := lead + " " + stamp;
    assert lead + " " + (stamp + "." + ext) == head + ['.'] + ext;
    AfterLastOfJoin(head, ext, '.');
  }

  lemma JoinStartsWith(lead: string, rest: string)
    ensures StartsWith(lead + " " + rest, lead + " ")
  {
    assert (lead + " " + rest)[..|lead| + 1] == lead + " ";
  }

  /** `link.download` as the toolbar writes it. */
  function DownloadNameAsWritten(filename: Option<string>, t: LocalTime): string {
    NameWith(filename, Stamp(t), ExtensionAsWritten(filename))
  }

  /** `link.download` with the intended extension. */
  function DownloadName(filename: Option<string>, t: LocalTime): string {
    NameWith(filename, Stamp(t), Extension(filename))
  }

  /** An image saved without a file name is named "ChatGPT Image <stamp>.image": its extension is "image". */
  lemma UnnamedImageSavedAsImage(t: LocalTime)
    ensures AfterLast(DownloadNameAsWritten(None, t), '.') == "image"
  {
    var ext := ExtensionAsWritten(None);
    NameEndsWithExtension(None, Stamp(t), ext);
  }

  /**
   * The intended name opens with the file name (or "ChatGPT Image") and a space, and the text
   * after its last '.' is the intended extension, "png" for an image without a name.
   */
  lemma DownloadNameEndsWithExtension(filename: Option<string>, t: LocalTime)
    ensures StartsWith(DownloadName(filename, t), Lead(filename) + " ")
    ensures AfterLast(DownloadName(filename, t), '.') == Extension(filename)
    ensures !Truthy(filename) ==> AfterLast(DownloadName(filename, t), '.') == "png"
  {
    NameEndsWithExtension(filename, Stamp(t), Extension(filename));
  }
}
