/**
 * The image upload widget of the editor's dialog: the media-type gate, the
 * first-file selection of drop and file-select, the drag and uploading flags,
 * and the hand-over of each read's data URL to the editor.
 */
module ImageUpload {
  import opened Wrappers
  import RichTextEditor

  /** A dropped or chosen file: its name and its media type. */
  datatype File = File(name: string, mediaType: string)

  datatype Outcome =
    | InvalidFileType   // refused by the media-type gate, nothing started
    | ReadStarted       // a read into a data URL is under way
    | UploadFailed      // starting the read threw; nothing is pending

  function StartsWith(s: string, prefix: string): bool {
    |prefix| <= |s| && s[..|prefix|] == prefix
  }

  /** The gate at the top of `handleFile`: only media types under `image/` pass. */
  function IsImage(f: File): (b: bool)
    ensures b <==> exists subtype :: f.mediaType == "image/" + subtype
  {
    var m := f.mediaType;
    assert StartsWith(m, "image/") ==> m == "image/" + m[6..];
    StartsWith(m, "image/")
  }

  /** `s.split('.')`: the pieces between the dots, in order. */
  function Split(s: string): (parts: seq<string>)
    ensures |parts| >= 1
    ensures forall i :: 0 <= i < |parts| ==> '.' !in parts[i]
    decreases |s|
  {
    if s == [] then [""]
    else
      var init, c := Split(s[..|s| - 1]), s[|s| - 1];
      if c == '.' then init + [""]
      else init[..|init| - 1] + [init[|init| - 1] + [c]]
  }

  /** The pieces put back together with a dot between neighbours. */
  function JoinDots(parts: seq<string>): string
    requires |parts| >= 1
    decreases |parts|
  {
    if |parts| == 1 then parts[0]
    else JoinDots(parts[..|parts| - 1]) + "." + parts[|parts| - 1]
  }

  lemma JoinDotsExtendLast(parts: seq<string>, c: char)
    requires |parts| >= 1
    ensures JoinDots(parts[..|parts| - 1] + [parts[|parts| - 1] + [c]]) == JoinDots(parts) + [c]
  {
  }

  /** Splitting loses nothing: joining the pieces with dots gives the name back. */
  lemma {:induction false} JoinSplit(s: string)
    ensures JoinDots(Split(s)) == s
    decreases |s|
  {
    if s != [] {
      var front, c := s[..|s| - 1], s[|s| - 1];
      var init := Split(front);
      JoinSplit(front);
      assert s == front + [c];
      if c == '.' {
        var q := init + [""];
        assert Split(s) == q;
        assert q[..|q| - 1] == init;
        assert JoinDots(q) == front + "." + "";
      } else {
        assert Split(s) == init[..|init| - 1] + [init[|init| - 1] + [c]];
        JoinDotsExtendLast(init, c);
      }
    }
  }

  /** The last piece of the split is the part of `s` after its last dot. */
  lemma {:induction false} SplitLast(s: string)
    ensures var parts := Split(s); var last := parts[|parts| - 1];
      |last| <= |s| && s[|s| - |last|..] == last &&
      (|last| < |s| ==> s[|s| - |last| - 1] == '.')
    decreases |s|
  {
    if s != [] {
      SplitLast(s[..|s| - 1]);
    }
  }

  /**
   * `file.name.split('.').pop()`: what follows the last dot of the name, or
   * the whole name when it has no dot.
   */
  function Extension(name: string): (ext: string)
    ensures '.' !in ext
    ensures |ext| <= |name| && name[|name| - |ext|..] == ext
    ensures |ext| < |name| ==> name[|name| - |ext| - 1] == '.'
    ensures '.' !in name ==> ext == name
  {
    var parts := Split(name);
    SplitLast(name);
    parts[|parts| - 1]
  }

  class Uploader {
    /** The `onImageUploaded` callback: the editor that receives each data URL. */
    const target: RichTextEditor.Editor
    var isDragging: bool
    var uploading: bool
    /** Files whose read has started and whose `onload` has not fired yet. */
    var pending: seq<File>
    /** How many reads were started, and the data URLs handed to the callback. */
    ghost var started: nat
    ghost var delivered: seq<string>

    ghost predicate Valid()
      reads this, target
    {
      |delivered| + |pending| == started && !uploading && target.Valid()
    }

    constructor (target: RichTextEditor.Editor)
      requires target.Valid()
      ensures Valid() && this.target == target
      ensures !isDragging && pending == [] && delivered == []
    {
      this.target := target;
      isDragging := false;
      uploading := false;
      pending := [];
      started := 0;
      delivered := [];
    }

    /**
     * `handleFile`: refuses a non-image, otherwise starts reading the file.
     * `throws` says whether starting the read raised an exception. The body
     * has no `await`, so all of it runs before the call returns: the uploading
     * flag is raised and lowered again before the read delivers anything.
     */
    method HandleFile(file: File, throws: bool) returns (outcome: Outcome)
      requires Valid()
      modifies this
      ensures Valid() && isDragging == old(isDragging) && delivered == old(delivered)
      ensures outcome == InvalidFileType <==> !IsImage(file)
      ensures outcome == UploadFailed <==> IsImage(file) && throws
      ensures outcome != ReadStarted ==> pending == old(pending) && started == old(started)
      ensures outcome == ReadStarted ==>
        pending == old(pending) + [file] && started == old(started) + 1
    {
      if !StartsWith(file.mediaType, "image/") {
        return InvalidFileType;
      }
      uploading := true;
      if throws {
        outcome := UploadFailed;
      } else {
        pending := pending + [file];
        started := started + 1;
        outcome := ReadStarted;
      }
      uploading := false;
    }

    /**
     * The `onload` of the read of `pending[k]`: its result goes to the
     * editor unchanged.
     */
    method ReadLoaded(k: nat, dataUrl: string)
      requires Valid() && k < |pending|
      modifies this, target
      ensures Valid() && isDragging == old(isDragging) && started == old(started)
      ensures pending == old(pending[..k] + pending[k + 1..])
      ensures delivered == old(delivered) + [dataUrl]
      ensures target.doc == if old(target.ready)
        then old(target.doc) + [RichTextEditor.SetImage(dataUrl, RichTextEditor.Style(old(target.imageWidth), old(target.imageFloat)))]
        else old(target.doc)
      ensures target.ready == old(target.ready) && target.imageUrl == old(target.imageUrl)
      ensures old(target.ready) ==> !target.dialogOpen && target.imageWidth == "auto" && target.imageFloat == "none"
      ensures !old(target.ready) ==> unchanged(target)
    {
      pending := pending[..k] + pending[k + 1..];
      delivered := delivered + [dataUrl];
      target.AddImageFromUpload(dataUrl);
    }

    method DragOver()
      modifies this`isDragging
      ensures isDragging
    {
      isDragging := true;
    }

    method DragLeave()
      modifies this`isDragging
      ensures !isDragging
    {
      isDragging := false;
    }

    /** `handleDrop`: only the first of the dropped files is handled. */
    method Drop(files: seq<File>, throws: bool) returns (outcome: Option<Outcome>)
      requires Valid()
      modifies this
      ensures Valid() && !isDragging && delivered == old(delivered)
      ensures outcome.Some? <==> files != []
      ensures files == [] ==> pending == old(pending) && started == old(started)
      ensures files != [] ==> RecordsStart(files[0], throws, outcome.value)
      ensures outcome == Some(ReadStarted) ==> pending == old(pending) + [files[0]]
      ensures outcome.Some? && outcome.value != ReadStarted ==> pending == old(pending)
    {
      isDragging := false;
      if |files| > 0 {
        var o := HandleFile(files[0], throws);
        outcome := Some(o);
      } else {
        outcome := None;
      }
    }

    /** `handleFileSelect`: `files` is None when the input reports no file list. */
    method FileSelect(files: Option<seq<File>>, throws: bool) returns (outcome: Option<Outcome>)
      requires Valid()
      modifies this
      ensures Valid() && isDragging == old(isDragging) && delivered == old(delivered)
      ensures outcome.Some? <==> files.Some? && files.value != []
      ensures outcome.None? ==> pending == old(pending) && started == old(started)
      ensures outcome.Some? ==> RecordsStart(files.value[0], throws, outcome.value)
      ensures outcome == Some(ReadStarted) ==> pending == old(pending) + [files.value[0]]
      ensures outcome.Some? && outcome.value != ReadStarted ==> pending == old(pending)
    {
      if files.Some? && |files.value| > 0 {
        var o := HandleFile(files.value[0], throws);
        outcome := Some(o);
      } else {
        outcome := None;
      }
    }
  }

  /** The outcome `handleFile` reports for `file`. */
  predicate RecordsStart(file: File, throws: bool, outcome: Outcome) {
    outcome == if !IsImage(file) then InvalidFileType
      else if throws then UploadFailed
      else ReadStarted
  }
}
