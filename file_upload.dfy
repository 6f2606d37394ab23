/**
 * The file picker used by both import cards: a size limit in megabytes, a
 * list of accepted extensions or MIME patterns, and the selected file.
 */
module FileUpload {
  import opened Wrappers
  import opened Strings

  /** The parts of a browser `File` the component reads. */
  datatype FileInfo = FileInfo(name: string, size: nat, mimeType: string)

  /**
   * `file.type.match(pattern)` is left uninterpreted: the model receives it
   * as a predicate on the MIME type and the pattern.
   */
  type MimeMatch = (string, string) -> bool

  const MegaByte: nat := 1024 * 1024

  /** `acceptedTypes.split(",").map(t => t.trim())` */
  function AllowedTypes(acceptedTypes: string): (ts: seq<string>)
    ensures |ts| == |Split(acceptedTypes, ',')|
    ensures forall i | 0 <= i < |ts| :: ts[i] == Trim(Split(acceptedTypes, ',')[i])
  {
    var parts := Split(acceptedTypes, ',');
    seq(|parts|, i requires 0 <= i < |parts| => Trim(parts[i]))
  }

  /** `"." + name.split(".").pop().toLowerCase()` */
  function Extension(name: string): (e: string)
    ensures |e| >= 1 && e[0] == '.' && e[1..] == Lower(LastSegment(name, '.'))
  {
    "." + Lower(LastSegment(name, '.'))
  }

  /** `type.replace("*", ".*")`: only the first star becomes a wildcard. */
  function MimePattern(t: string): (p: string)
    ensures '*' !in t ==> p == t
    ensures '*' in t ==> exists k | 0 <= k < |t| :: t[k] == '*' && '*' !in t[..k] && p == t[..k] + ".*" + t[k + 1..]
  {
    if '*' in t then
      var k := IndexOf(t, '*');
      t[..k] + ".*" + t[k + 1..]
    else t
  }

  predicate TypeAccepted(file: FileInfo, acceptedTypes: string, mime: MimeMatch) {
    var ts := AllowedTypes(acceptedTypes);
    exists i | 0 <= i < |ts| :: ts[i] == Extension(file.name) || mime(file.mimeType, MimePattern(ts[i]))
  }

  function SizeMessage(maxSize: nat): string {
    "File size exceeds " + NatToString(maxSize) + "MB limit"
  }

  function TypeMessage(acceptedTypes: string): string {
    "File type not supported. Accepted types: " + acceptedTypes
  }

  /**
   * The size is checked first and only a file larger than the limit fails
   * it; with `"*"` the type is not checked; otherwise the file passes when
   * one accepted entry equals its extension or matches its MIME type.
   */
  function ValidateFile(file: FileInfo, acceptedTypes: string, maxSize: nat, mime: MimeMatch): (r: Option<string>)
    ensures file.size > maxSize * MegaByte ==> r == Some(SizeMessage(maxSize))
    ensures file.size <= maxSize * MegaByte && acceptedTypes == "*" ==> r.None?
    ensures file.size <= maxSize * MegaByte && acceptedTypes != "*" ==>
              (r.None? <==> TypeAccepted(file, acceptedTypes, mime)) &&
              (r.Some? ==> r.value == TypeMessage(acceptedTypes))
  {
    if file.size > maxSize * MegaByte then Some(SizeMessage(maxSize))
    else if acceptedTypes != "*" && !TypeAccepted(file, acceptedTypes, mime) then Some(TypeMessage(acceptedTypes))
    else None
  }

  /** A file of exactly the limit passes the size check. */
  lemma ExactLimitPasses(file: FileInfo, acceptedTypes: string, maxSize: nat, mime: MimeMatch)
    requires file.size == maxSize * MegaByte
    ensures ValidateFile(file, acceptedTypes, maxSize, mime) != Some(SizeMessage(maxSize))
  {
    assert SizeMessage(maxSize)[5] == 's' && TypeMessage(acceptedTypes)[5] == 't';
  }

  /** For a name ending in a dot and a dot-free suffix, the extension is that suffix in lower case. */
  lemma {:induction false} ExtensionOfDottedName(base: string, ext: string)
    requires '.' !in ext
    ensures Extension(base + "." + ext) == "." + Lower(ext)
  {
    var s := base + "." + ext;
    var t := LastSegment(s, '.');
    assert s[|base|] == '.';
    assert '.' in s;
    LastSegmentIsSuffix(s, '.');
    assert s[|s| - |ext|..] == ext;
    assert t == ext;
  }

  datatype DragEvent = DragEnter | DragOver | DragLeave | OtherDrag

  /** The component's state; `chosen` records the files passed to `onFileSelect`. */
  class Picker {
    const acceptedTypes: string
    const maxSize: nat
    const disabled: bool
    const mime: MimeMatch
    var dragActive: bool
    var selectedFile: Option<FileInfo>
    var error: string
    var chosen: seq<FileInfo>

    /** A selected file always passed validation and is never shown beside an error. */
    predicate Valid()
      reads this
    {
      selectedFile.Some? ==> error == "" && ValidateFile(selectedFile.value, acceptedTypes, maxSize, mime).None?
    }

    constructor (acceptedTypes: string, maxSize: nat, disabled: bool, mime: MimeMatch)
      ensures Valid()
      ensures this.acceptedTypes == acceptedTypes && this.maxSize == maxSize && this.disabled == disabled && this.mime == mime
      ensures !dragActive && selectedFile.None? && error == "" && chosen == []
    {
      this.acceptedTypes := acceptedTypes;
      this.maxSize := maxSize;
      this.disabled := disabled;
      this.mime := mime;
      dragActive := false;
      selectedFile := None;
      error := "";
      chosen := [];
    }

    /**
     * The first file of a list: an empty list does nothing; a rejected file
     * sets the error and clears the selection; an accepted one clears the
     * error, becomes the selection and is reported once.
     */
    method HandleFiles(files: seq<FileInfo>)
      requires Valid()
      modifies this
      ensures Valid()
      ensures dragActive == old(dragActive)
      ensures files == [] ==> selectedFile == old(selectedFile) && error == old(error) && chosen == old(chosen)
      ensures files != [] && ValidateFile(files[0], acceptedTypes, maxSize, mime).Some? ==>
                error == ValidateFile(files[0], acceptedTypes, maxSize, mime).value && selectedFile.None? && chosen == old(chosen)
      ensures files != [] && ValidateFile(files[0], acceptedTypes, maxSize, mime).None? ==>
                error == "" && selectedFile == Some(files[0]) && chosen == old(chosen) + [files[0]]
    {
      if files == [] {
        return;
      }
      var file := files[0];
      var validation := ValidateFile(file, acceptedTypes, maxSize, mime);
      if validation.Some? {
        error := validation.value;
        selectedFile := None;
        return;
      }
      error := "";
      selectedFile := Some(file);
      chosen := chosen + [file];
    }

    method HandleDrag(e: DragEvent)
      requires Valid()
      modifies this
      ensures Valid()
      ensures dragActive == if e == DragEnter || e == DragOver then true else if e == DragLeave then false else old(dragActive)
      ensures selectedFile == old(selectedFile) && error == old(error) && chosen == old(chosen)
    {
      if e == DragEnter || e == DragOver {
        dragActive := true;
      } else if e == DragLeave {
        dragActive := false;
      }
    }

    /** A drop always ends the drag highlight; while disabled it is otherwise ignored. */
    method HandleDrop(files: seq<FileInfo>)
      requires Valid()
      modifies this
      ensures Valid()
      ensures !dragActive
      ensures disabled || files == [] ==> selectedFile == old(selectedFile) && error == old(error) && chosen == old(chosen)
      ensures !disabled && files != [] && ValidateFile(files[0], acceptedTypes, maxSize, mime).None? ==>
                error == "" && selectedFile == Some(files[0]) && chosen == old(chosen) + [files[0]]
      ensures !disabled && files != [] && ValidateFile(files[0], acceptedTypes, maxSize, mime).Some? ==>
                selectedFile.None? && error == ValidateFile(files[0], acceptedTypes, maxSize, mime).value && chosen == old(chosen)
    {
      dragActive := false;
      if disabled {
        return;
      }
      if files != [] {
        HandleFiles(files);
      }
    }

    /** The hidden input's change event; ignored while disabled. */
    method HandleChange(files: seq<FileInfo>)
      requires Valid()
      modifies this
      ensures Valid()
      ensures dragActive == old(dragActive)
      ensures disabled || files == [] ==> selectedFile == old(selectedFile) && error == old(error) && chosen == old(chosen)
      ensures !disabled && files != [] && ValidateFile(files[0], acceptedTypes, maxSize, mime).None? ==>
                error == "" && selectedFile == Some(files[0]) && chosen == old(chosen) + [files[0]]
      ensures !disabled && files != [] && ValidateFile(files[0], acceptedTypes, maxSize, mime).Some? ==>
                selectedFile.None? && error == ValidateFile(files[0], acceptedTypes, maxSize, mime).value && chosen == old(chosen)
    {
      if disabled {
        return;
      }
      if files != [] {
        HandleFiles(files);
      }
    }

    method RemoveFile()
      requires Valid()
      modifies this
      ensures Valid()
      ensures selectedFile.None? && error == ""
      ensures dragActive == old(dragActive) && chosen == old(chosen)
    {
      selectedFile := None;
      error := "";
    }
  }
}
