/**
 * The image and link insertions of the post editor: the layout style derived
 * from the dialog's width and wrap selections, and the dialog state that the
 * insertions reset. The document itself is kept abstract, as the sequence of
 * edits applied to it.
 */
module RichTextEditor {
  import opened Wrappers

  const HeightAuto := "height: auto;"
  const BorderRadius := "border-radius: 0.5rem;"
  const AutoWidth := "max-width: 100%;"
  const CenteredDisplay := "display: block;"
  const CenteredMargin := "margin: 1rem auto;"
  const LeftMargin := "margin: 0 1rem 1rem 0;"
  const RightMargin := "margin: 0 0 1rem 1rem;"

  /** The width choices the dialog's select offers. */
  const WidthChoices: set<string> := {"auto", "25%", "50%", "75%", "100%", "300px", "500px"}
  /** The wrap choices the dialog's select offers. */
  const FloatChoices: set<string> := {"none", "left", "right"}

  /**
   * A selection as the style template sees it: the source turns the default
   * into `undefined`, and the template then treats `undefined` and the empty
   * string alike, since both are falsy.
   */
  function Chosen(selection: string, default: string): string {
    if selection == "" then default else selection
  }

  /**
   * The declarations of an inserted image's style attribute, in order:
   * the width part, `height: auto;`, the two declarations of the wrap part,
   * and `border-radius: 0.5rem;`.
   */
  function Style(width: string, float: string): (decls: seq<string>)
    ensures |decls| == 5 && decls[1] == HeightAuto && decls[4] == BorderRadius
  {
    var widthPart :=
      if width != "auto" && width != "" then "width: " + width + ";" else AutoWidth;
    var floatPart :=
      if float != "none" && float != "" then
        ["float: " + float + ";", if float == "left" then LeftMargin else RightMargin]
      else
        [CenteredDisplay, CenteredMargin];
    [widthPart, HeightAuto] + floatPart + [BorderRadius]
  }

  /**
   * The parts case by case: the width part is `max-width: 100%;` for the
   * default and `width: w;` otherwise; no wrap centres the image as a block,
   * a left wrap floats it left with a right margin, and any other wrap floats
   * it that way with a left margin.
   */
  lemma StyleCases(width: string, float: string)
    ensures var decls := Style(width, float);
      && (width == "auto" || width == "" ==> decls[0] == AutoWidth)
      && (width != "auto" && width != "" ==> decls[0] == "width: " + width + ";")
      && (float == "none" || float == "" ==> decls[2..4] == [CenteredDisplay, CenteredMargin])
      && (float == "left" ==> decls[2..4] == ["float: left;", LeftMargin])
      && (float !in {"none", "left", ""} ==> decls[2..4] == ["float: " + float + ";", RightMargin])
  {
    assert "float: " + "left" + ";" == "float: left;";
  }

  /** The declaration `prop: v;` split back into `v`, when `decl` has that form. */
  function ValueOf(prop: string, decl: string): Option<string> {
    var n := |prop| + 2;
    if |decl| > n && decl[..n] == prop + ": " && decl[|decl| - 1] == ';' then
      Some(decl[n..|decl| - 1])
    else
      None
  }

  /**
   * The (width, wrap) selection a style was derived from, or None when the
   * declarations are not of the form Style produces.
   */
  function Layout(decls: seq<string>): Option<(string, string)> {
    if |decls| != 5 || decls[1] != HeightAuto || decls[4] != BorderRadius then None
    else
      var width :=
        if decls[0] == AutoWidth then Some("auto") else ValueOf("width", decls[0]);
      var float :=
        if decls[2] == CenteredDisplay then
          (if decls[3] == CenteredMargin then Some("none") else None)
        else
          match ValueOf("float", decls[2])
          case Some(f) =>
            if f != "none" && decls[3] == (if f == "left" then LeftMargin else RightMargin)
            then Some(f) else None
          case None => None;
      if width.Some? && width.value != "" && float.Some? && float.value != "" then
        Some((width.value, float.value))
      else
        None
  }

  lemma ValueOfDecl(prop: string, v: string)
    requires v != ""
    ensures ValueOf(prop, prop + ": " + v + ";") == Some(v)
  {
  }

  /**
   * The style records its selection: the layout read back from the style is
   * the selection, with an empty selection read as the default.
   */
  lemma LayoutOfStyle(width: string, float: string)
    ensures Layout(Style(width, float)) == Some((Chosen(width, "auto"), Chosen(float, "none")))
  {
    var decls := Style(width, float);
    if width != "auto" && width != "" {
      ValueOfDecl("width", width);
      assert decls[0] != AutoWidth by { assert decls[0][0] == 'w'; }
    }
    if float != "none" && float != "" {
      ValueOfDecl("float", float);
      assert decls[2] != CenteredDisplay by { assert decls[2][0] == 'f'; }
    }
  }

  /** Different choices from the dialog's selects give different styles. */
  lemma StyleInjective(w1: string, f1: string, w2: string, f2: string)
    requires w1 in WidthChoices && w2 in WidthChoices
    requires f1 in FloatChoices && f2 in FloatChoices
    requires Style(w1, f1) == Style(w2, f2)
    ensures w1 == w2 && f1 == f2
  {
    LayoutOfStyle(w1, f1);
    LayoutOfStyle(w2, f2);
  }

  /** The style attribute's text: the declarations joined by a separator. */
  function Join(decls: seq<string>, sep: string): string
    decreases |decls|
  {
    if decls == [] then ""
    else if |decls| == 1 then decls[0]
    else decls[0] + sep + Join(decls[1..], sep)
  }

  lemma {:induction false} JoinEndsWithLast(decls: seq<string>, sep: string)
    requires decls != []
    ensures var text, last := Join(decls, sep), decls[|decls| - 1];
      |last| <= |text| && text[|text| - |last|..] == last
    decreases |decls|
  {
    if |decls| > 1 {
      JoinEndsWithLast(decls[1..], sep);
      var rest := Join(decls[1..], sep);
      var last := decls[|decls| - 1];
      assert decls[1..][|decls| - 2] == last;
      var text := decls[0] + sep + rest;
      assert text[|text| - |last|..] == rest[|rest| - |last|..];
    }
  }

  lemma JoinStartsWithFirst(decls: seq<string>, sep: string)
    requires decls != []
    ensures var text := Join(decls, sep); |decls[0]| <= |text| && text[..|decls[0]|] == decls[0]
  {
  }

  function CssText(width: string, float: string): string {
    Join(Style(width, float), " ")
  }

  /**
   * The trimmed style text opens with the width part and closes with
   * `border-radius: 0.5rem;`.
   */
  lemma CssTextFrame(width: string, float: string)
    ensures var text, first := CssText(width, float), Style(width, float)[0];
      |first| <= |text| && text[..|first|] == first &&
      |BorderRadius| <= |text| && text[|text| - |BorderRadius|..] == BorderRadius
  {
    JoinStartsWithFirst(Style(width, float), " ");
    JoinEndsWithLast(Style(width, float), " ");
  }

  /** The example of a 50% image wrapped to the left. */
  lemma HalfWidthFloatLeft()
    ensures Style("50%", "left") ==
      ["width: 50%;", "height: auto;", "float: left;", "margin: 0 1rem 1rem 0;", "border-radius: 0.5rem;"]
  {
    assert "width: " + "50%" + ";" == "width: 50%;";
    assert "float: " + "left" + ";" == "float: left;";
  }

  /** An edit applied to the document through the editor's command chain. */
  datatype Edit =
    | SetImage(src: string, style: seq<string>)
    | SetLink(href: string)

  /** Every image in the document carries a style of the form Style produces. */
  ghost predicate WellStyled(doc: seq<Edit>) {
    forall i :: 0 <= i < |doc| && doc[i].SetImage? ==> Layout(doc[i].style).Some?
  }

  class Editor {
    /** Whether the editor instance exists (the hook returns null until it does). */
    var ready: bool
    /** The edits applied so far, oldest first. */
    var doc: seq<Edit>
    var dialogOpen: bool
    var imageUrl: string
    var imageWidth: string
    var imageFloat: string

    ghost predicate Valid()
      reads this
    {
      WellStyled(doc)
    }

    /**
     * `initial` is the document the editor opens with. The invariant covers
     * images inserted through the dialog and the upload widget; the model
     * requires the opening document to be well-styled too, which a post's
     * stored or pasted HTML need not be.
     */
    constructor (ready: bool, initial: seq<Edit>)
      requires WellStyled(initial)
      ensures Valid() && this.ready == ready && doc == initial
      ensures !dialogOpen && imageUrl == "" && imageWidth == "auto" && imageFloat == "none"
    {
      this.ready := ready;
      doc := initial;
      dialogOpen := false;
      imageUrl := "";
      imageWidth := "auto";
      imageFloat := "none";
    }

    method SetDialogOpen(open: bool)
      modifies this`dialogOpen
      ensures dialogOpen == open
    {
      dialogOpen := open;
    }

    method SetImageUrl(url: string)
      modifies this`imageUrl
      ensures imageUrl == url
    {
      imageUrl := url;
    }

    method SetImageWidth(width: string)
      modifies this`imageWidth
      ensures imageWidth == width
    {
      imageWidth := width;
    }

    method SetImageFloat(float: string)
      modifies this`imageFloat
      ensures imageFloat == float
    {
      imageFloat := float;
    }

    /** Appends an image with the current selection's style. */
    method InsertImage(src: string)
      requires Valid()
      modifies this`doc
      ensures Valid()
      ensures doc == old(doc) + [SetImage(src, Style(imageWidth, imageFloat))]
    {
      var style := Style(imageWidth, imageFloat);
      LayoutOfStyle(imageWidth, imageFloat);
      doc := doc + [SetImage(src, style)];
    }

    /** The upload widget's callback: inserts the delivered image source as it is. */
    method AddImageFromUpload(url: string)
      requires Valid()
      modifies this
      ensures Valid() && ready == old(ready) && imageUrl == old(imageUrl)
      ensures !old(ready) ==> unchanged(this)
      ensures old(ready) ==>
        && doc == old(doc) + [SetImage(url, Style(old(imageWidth), old(imageFloat)))]
        && !dialogOpen && imageWidth == "auto" && imageFloat == "none"
    {
      if ready {
        InsertImage(url);
        dialogOpen := false;
        imageWidth := "auto";
        imageFloat := "none";
      }
    }

    /** Inserts the image at the typed URL; nothing happens while the URL is empty. */
    method AddImageFromUrl()
      requires Valid()
      modifies this
      ensures Valid() && ready == old(ready)
      ensures !(old(ready) && old(imageUrl) != "") ==> unchanged(this)
      ensures old(ready) && old(imageUrl) != "" ==>
        && doc == old(doc) + [SetImage(old(imageUrl), Style(old(imageWidth), old(imageFloat)))]
        && imageUrl == "" && !dialogOpen && imageWidth == "auto" && imageFloat == "none"
    {
      if imageUrl != "" && ready {
        InsertImage(imageUrl);
        imageUrl := "";
        dialogOpen := false;
        imageWidth := "auto";
        imageFloat := "none";
      }
    }

    /**
     * Links the selection to the URL the prompt returned; `prompted` is None
     * when the prompt was cancelled.
     */
    method AddLink(prompted: Option<string>)
      requires Valid()
      modifies this`doc
      ensures Valid()
      ensures doc == if ready && prompted.Some? && prompted.value != ""
        then old(doc) + [SetLink(prompted.value)] else old(doc)
    {
      if prompted.Some? && prompted.value != "" && ready {
        doc := doc + [SetLink(prompted.value)];
      }
    }
  }
}
