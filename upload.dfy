/** The upload zone (components/UploadZone.tsx): single-file validation, the folder filter, drag state. */
module Upload {
  import opened Wrappers
  import opened Types
  import Text
  import Seqs
  import Constants

  const AudioTypeMessage: string := "Please upload an audio file (MP3, WAV, M4A, etc.)"
  const SizeMessage: string := "File size exceeds " + Text.Decimal(Constants.MaxFileSizeMb) + "MB limit."
  const EmptyFolderMessage: string := "No valid audio files found in this folder."

  /** `file.type.startsWith('audio/')`. */
  predicate IsAudio(f: FileInfo)
    ensures IsAudio(f) <==> |f.mimeType| >= 6 && f.mimeType[..6] == "audio/"
  {
    "audio/" <= f.mimeType
  }

  /** The folder filter's test: audio, and no larger than the ceiling. */
  predicate IsAcceptable(f: FileInfo)
    ensures IsAcceptable(f) <==> IsAudio(f) && f.size <= 10485760
  {
    IsAudio(f) && f.size <= Constants.MaxFileBytes
  }

  /** The message single-file validation shows, or `None` when the file is accepted; the type is checked first. */
  function Check(f: FileInfo): (r: Option<string>)
    ensures r.None? <==> IsAudio(f) && f.size <= Constants.MaxFileBytes
    ensures !IsAudio(f) ==> r == Some(AudioTypeMessage)
    ensures IsAudio(f) && f.size > Constants.MaxFileBytes ==> r == Some(SizeMessage)
  {
    if !IsAudio(f) then Some(AudioTypeMessage)
    else if f.size > Constants.MaxFileBytes then Some(SizeMessage)
    else None
  }

  /** The files of a picked folder that pass, in their original order. */
  function FolderFilter(files: seq<FileInfo>): (r: seq<FileInfo>)
    ensures forall i :: 0 <= i < |r| ==> IsAcceptable(r[i])
  {
    Seqs.Filter(files, IsAcceptable)
  }

  /** The size message reads "File size exceeds 10MB limit.". */
  lemma SizeMessageText()
    ensures SizeMessage == "File size exceeds 10MB limit."
  {
    assert Text.Decimal(10) == "10";
  }

  /** The two checks agree: a file passes the single-file check exactly when the folder filter keeps it. */
  lemma CheckMatchesFolder(f: FileInfo)
    ensures Check(f).None? <==> IsAcceptable(f)
  {
  }

  /** A file of exactly the ceiling is accepted; one byte more is refused with the size message. */
  lemma SizeBoundary(f: FileInfo)
    requires IsAudio(f)
    ensures f.size == 10485760 ==> Check(f) == None
    ensures f.size == 10485761 ==> Check(f) == Some(SizeMessage)
  {
  }

  /** The filter keeps each passing file exactly as often as it occurs and drops every other file. */
  lemma FolderFilterExactly(files: seq<FileInfo>, f: FileInfo)
    ensures multiset(FolderFilter(files))[f] == if IsAcceptable(f) then multiset(files)[f] else 0
  {
    Seqs.FilterCount(files, IsAcceptable, f);
  }

  /** The filter preserves order: it distributes over concatenation. */
  lemma FolderFilterOrder(a: seq<FileInfo>, b: seq<FileInfo>)
    ensures FolderFilter(a + b) == FolderFilter(a) + FolderFilter(b)
  {
    Seqs.FilterConcat(a, b, IsAcceptable);
  }

  /** The component's own state: the inline error and whether a drag hovers over it. */
  class Zone {
    var error: Option<string>
    var isDragging: bool

    constructor ()
      ensures error == None && !isDragging
    {
      error := None;
      isDragging := false;
    }

    method DragOver()
      modifies this
      ensures isDragging && error == old(error)
    {
      isDragging := true;
    }

    method DragLeave()
      modifies this
      ensures !isDragging && error == old(error)
    {
      isDragging := false;
    }

    /**
     * `validateAndPassFile`: clears the error, then refuses a non-audio type and then
     * an oversized file. `passed` is the file handed to `onFileSelected`, once, or
     * `None` when the callback is not invoked.
     */
    method ValidateAndPassFile(f: FileInfo) returns (passed: Option<FileInfo>)
      modifies this
      ensures error == Check(f)
      ensures passed.Some? <==> Check(f).None?
      ensures passed.Some? ==> passed.value == f
      ensures isDragging == old(isDragging)
    {
      error := None;
      if !IsAudio(f) {
        error := Some(AudioTypeMessage);
        passed := None;
        return;
      }
      if f.size > Constants.MaxFileBytes {
        error := Some(SizeMessage);
        passed := None;
        return;
      }
      passed := Some(f);
    }

    /** `handleFileInput`: validates the first chosen file; without one nothing happens. */
    method HandleFileInput(files: seq<FileInfo>) returns (passed: Option<FileInfo>)
      modifies this
      ensures files == [] ==> passed == None && error == old(error)
      ensures files != [] ==> error == Check(files[0])
      ensures files != [] ==> (passed.Some? <==> Check(files[0]).None?)
      ensures passed.Some? ==> passed.value == files[0]
      ensures isDragging == old(isDragging)
    {
      passed := None;
      if files != [] {
        passed := ValidateAndPassFile(files[0]);
      }
    }

    /** `handleDrop`: ends the drag, then validates the first dropped file; without one nothing else happens. */
    method HandleDrop(files: seq<FileInfo>) returns (passed: Option<FileInfo>)
      modifies this
      ensures !isDragging
      ensures files == [] ==> passed == None && error == old(error)
      ensures files != [] ==> error == Check(files[0])
      ensures files != [] ==> (passed.Some? <==> Check(files[0]).None?)
      ensures passed.Some? ==> passed.value == files[0]
    {
      isDragging := false;
      passed := None;
      if files != [] {
        passed := ValidateAndPassFile(files[0]);
      }
    }

    /**
     * `handleFolderInput`: keeps the passing files; reports an error when none pass,
     * otherwise clears it. `selected` is what `onFolderSelected` receives, or `None`
     * when it is not called.
     */
    method HandleFolderInput(files: seq<FileInfo>) returns (selected: Option<seq<FileInfo>>)
      modifies this
      ensures files == [] ==> selected == None && error == old(error)
      ensures files != [] && FolderFilter(files) == [] ==> selected == None && error == Some(EmptyFolderMessage)
      ensures files != [] && FolderFilter(files) != [] ==> selected == Some(FolderFilter(files)) && error == None
      ensures isDragging == old(isDragging)
    {
      selected := None;
      if files != [] {
        var audioFiles := FolderFilter(files);
        if audioFiles == [] {
          error := Some(EmptyFolderMessage);
        } else {
          error := None;
          selected := Some(audioFiles);
        }
      }
    }
  }
}
