/** The upload widget (frontend/src/components/FileUpload.tsx): the type
    and size checks on a chosen video and the gate in front of the upload
    callback. The callback itself is recorded as the list of files handed
    to it. */
module FileUpload {
  import opened Wrappers

  /** The browser's File as the widget reads it. */
  datatype File = File(name: string, mimeType: string, size: nat)

  const AllowedTypes: seq<string> := ["video/mp4", "video/mkv", "video/webm"]

  /** 3 GiB, in bytes. */
  const MaxSize: nat := 1024 * 1024 * 1024 * 3

  const TypeError: string := "Only MP4, MKV, WEBM files are allowed."
  const SizeError: string := "File size exceeds 3GB limit."

  /** validateFile: the error to show, or None for an acceptable file. */
  function ValidateFile(file: File): (r: Option<string>)
    ensures r == Some(TypeError) <==> file.mimeType !in AllowedTypes
    ensures r == Some(SizeError) <==> file.mimeType in AllowedTypes && file.size > MaxSize
    ensures r.None? <==> file.mimeType in AllowedTypes && file.size <= MaxSize
  {
    if file.mimeType !in AllowedTypes then Some(TypeError)
    else if file.size > MaxSize then Some(SizeError)
    else None
  }

  /** The type check comes first: a wrong type is reported as such however
      large the file, and a file of exactly 3 GiB is accepted. */
  lemma CheckOrder(name: string, mimeType: string, size: nat)
    ensures mimeType !in AllowedTypes ==> ValidateFile(File(name, mimeType, size)) == Some(TypeError)
    ensures ValidateFile(File(name, "video/mp4", MaxSize)) == None
    ensures ValidateFile(File(name, "video/mp4", MaxSize + 1)) == Some(SizeError)
    ensures ValidateFile(File(name, "video/quicktime", size)) == Some(TypeError)
  {
    assert "video/quicktime" != AllowedTypes[0];
  }

  /** The widget's state; uploads stands for the calls of onUpload. */
  class Uploader {
    var dragActive: bool
    var error: Option<string>
    var uploads: seq<File>

    constructor()
      ensures !dragActive && error == None && uploads == []
    {
      dragActive := false;
      error := None;
      uploads := [];
    }

    /** The shared branch of both handlers: show the error, or clear it and
        pass the file on. */
    method Accept(file: File)
      modifies this
      ensures ValidateFile(file).Some? ==> error == ValidateFile(file) && uploads == old(uploads)
      ensures ValidateFile(file).None? ==> error == None && uploads == old(uploads) + [file]
      ensures dragActive == old(dragActive)
    {
      var validation := ValidateFile(file);
      if validation.Some? {
        error := validation;
      } else {
        error := None;
        uploads := uploads + [file];
      }
    }

    /** handleDrop: the drag highlight goes off, then the first dropped
        file, if any, goes through the gate. */
    method HandleDrop(files: seq<File>)
      modifies this
      ensures !dragActive
      ensures files == [] ==> error == old(error) && uploads == old(uploads)
      ensures files != [] && ValidateFile(files[0]).Some? ==>
                error == ValidateFile(files[0]) && uploads == old(uploads)
      ensures files != [] && ValidateFile(files[0]).None? ==>
                error == None && uploads == old(uploads) + [files[0]]
    {
      dragActive := false;
      if files != [] {
        Accept(files[0]);
      }
    }

    /** handleChange: the first chosen file, if any, goes through the gate;
        the drag highlight is left alone. */
    method HandleChange(files: seq<File>)
      modifies this
      ensures dragActive == old(dragActive)
      ensures files == [] ==> error == old(error) && uploads == old(uploads)
      ensures files != [] && ValidateFile(files[0]).Some? ==>
                error == ValidateFile(files[0]) && uploads == old(uploads)
      ensures files != [] && ValidateFile(files[0]).None? ==>
                error == None && uploads == old(uploads) + [files[0]]
    {
      if files != [] {
        Accept(files[0]);
      }
    }
  }
}
