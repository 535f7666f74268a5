/** The file uploader: which files it forwards to the page, and its drag-highlight state. */
module Uploader {
  import opened Common

  /** JavaScript's `String.prototype.startsWith`: case-sensitive, character by character. */
  predicate StartsWith(s: string, prefix: string)
  {
    |prefix| <= |s| && s[..|prefix|] == prefix
  }

  const AudioPrefix: string := "audio/"
  const VideoPrefix: string := "video/"

  /** The MIME types the uploader accepts. */
  predicate IsMediaType(mimeType: string)
  {
    StartsWith(mimeType, AudioPrefix) || StartsWith(mimeType, VideoPrefix)
  }

  /** A prefix test holds exactly when the string is the prefix followed by some rest. */
  lemma StartsWithIff(s: string, prefix: string)
    ensures StartsWith(s, prefix) <==> exists rest :: s == prefix + rest
  {
    if StartsWith(s, prefix) {
      assert s == prefix + s[|prefix|..];
    }
    if exists rest :: s == prefix + rest {
      var rest :| s == prefix + rest;
      assert s[..|prefix|] == prefix;
    }
  }

  /** The media types are exactly the types spelled "audio/..." or "video/...". */
  lemma MediaTypeIff(mimeType: string)
    ensures IsMediaType(mimeType) <==> exists rest :: mimeType == AudioPrefix + rest || mimeType == VideoPrefix + rest
  {
    StartsWithIff(mimeType, AudioPrefix);
    StartsWithIff(mimeType, VideoPrefix);
  }

  /** A string that differs from the prefix at some position inside both does not start with it. */
  lemma DiffersAt(s: string, prefix: string, k: nat)
    requires k < |s| && k < |prefix| && s[k] != prefix[k]
    ensures !StartsWith(s, prefix)
  {
    if |prefix| <= |s| {
      assert s[..|prefix|][k] == s[k];
    }
  }

  lemma MediaTypeExamples()
    ensures IsMediaType("audio/mpeg") && IsMediaType("audio/webm") && IsMediaType("video/mp4")
    ensures IsMediaType("audio/")
    ensures !IsMediaType("image/png") && !IsMediaType("application/ogg")
    ensures !IsMediaType("audio") && !IsMediaType("Audio/mpeg") && !IsMediaType("")
  {
    DiffersAt("image/png", AudioPrefix, 0);
    DiffersAt("image/png", VideoPrefix, 0);
    DiffersAt("application/ogg", AudioPrefix, 1);
    DiffersAt("application/ogg", VideoPrefix, 0);
    DiffersAt("Audio/mpeg", AudioPrefix, 0);
    DiffersAt("Audio/mpeg", VideoPrefix, 0);
    assert "audio/mpeg"[..6] == AudioPrefix;
    assert "audio/webm"[..6] == AudioPrefix;
    assert "video/mp4"[..6] == VideoPrefix;
  }

  /** What handling a (possibly missing) file does. */
  datatype FileAction =
    | Forward(file: Blob)   // hand the file to the page
    | Reject                // raise one "Invalid File Type" toast
    | Ignore                // no file: nothing happens

  function Decide(file: Option<Blob>): (a: FileAction)
    ensures a.Forward? <==> file.Some? && IsMediaType(file.value.mimeType)
    ensures a.Forward? ==> a.file == file.value
    ensures a.Reject? <==> file.Some? && !IsMediaType(file.value.mimeType)
    ensures a.Ignore? <==> file.None?
  {
    match file
    case None => Ignore
    case Some(f) => if IsMediaType(f.mimeType) then Forward(f) else Reject
  }

  /** The first file of a file list, if there is one. */
  function First(files: seq<Blob>): (r: Option<Blob>)
    ensures r.Some? <==> files != []
    ensures r.Some? ==> r.value == files[0]
  {
    if files == [] then None else Some(files[0])
  }

  /** The uploader component. `disabled` is the prop its parent passes; `selected` and `notices`
      record, in order, the files handed to `onFileSelect` and the toasts raised. */
  class FileUploader {
    var isDragging: bool
    var disabled: bool
    var selected: seq<Blob>
    var notices: seq<Notice>

    constructor (disabled: bool)
      ensures this.disabled == disabled && !isDragging
      ensures selected == [] && notices == []
    {
      this.disabled := disabled;
      isDragging := false;
      selected := [];
      notices := [];
    }

    /** The drop zone is highlighted only while a drag is over it and the uploader is enabled. */
    function Highlighted(): (h: bool)
      reads this
      ensures h ==> !disabled
    {
      isDragging && !disabled
    }

    /** The parent re-renders with a new `disabled` prop. */
    method SetDisabled(d: bool)
      modifies this`disabled
      ensures disabled == d
    {
      disabled := d;
    }

    /** Forwards a file of an audio or video type, raises one toast for any other file, and
        does nothing without a file. */
    method HandleFile(file: Option<Blob>)
      modifies this`selected, this`notices
      ensures selected == old(selected) + (if Decide(file).Forward? then [file.value] else [])
      ensures notices == old(notices) + (if Decide(file).Reject? then [InvalidFileType] else [])
    {
      match Decide(file)
      case Forward(f) => selected := selected + [f];
      case Reject => notices := notices + [InvalidFileType];
      case Ignore =>
    }

    method DragOver()
      modifies this`isDragging
      ensures isDragging == (old(isDragging) || !disabled)
    {
      if !disabled {
        isDragging := true;
      }
    }

    method DragLeave()
      modifies this`isDragging
      ensures !isDragging
    {
      isDragging := false;
    }

    /** Always clears the highlight; when enabled, handles the first dropped file, if any. */
    method Drop(files: seq<Blob>)
      modifies this`isDragging, this`selected, this`notices
      ensures !isDragging
      ensures disabled || files == [] ==> selected == old(selected) && notices == old(notices)
      ensures !disabled && files != [] ==>
        selected == old(selected) + (if IsMediaType(files[0].mimeType) then [files[0]] else []) &&
        notices == old(notices) + (if IsMediaType(files[0].mimeType) then [] else [InvalidFileType])
    {
      isDragging := false;
      if disabled {
        return;
      }
      if files != [] {
        HandleFile(First(files));
      }
    }

    /** A click opens the file picker only when the uploader is enabled; nothing else changes. */
    method ButtonClick() returns (opensPicker: bool)
      ensures opensPicker <==> !disabled
    {
      if disabled {
        return false;
      }
      opensPicker := true;
    }

    /** The picker's change event hands over the first chosen file, if any. */
    method InputChange(files: seq<Blob>)
      modifies this`selected, this`notices
      ensures selected == old(selected) + (if files != [] && IsMediaType(files[0].mimeType) then [files[0]] else [])
      ensures notices == old(notices) + (if files != [] && !IsMediaType(files[0].mimeType) then [InvalidFileType] else [])
    {
      HandleFile(First(files));
    }
  }
}
