/**
 The attachment picker of the post form: batch intake through the file
 validator, removal of one attachment, and the icon shown per file. The list
 of attachments belongs to the parent form and is replaced through the
 `onChange` callback; here it is a field of the component, and a call of
 `onChange` is an assignment to that field.
 */
module FileUpload {
  import opened Types
  import opened JsString
  import opened FileValidation

  /** The separator between rejection entries. */
  const EntrySeparator: string := ". "

  /** `${file.name}: ${validation.error}` for a file the validator refused. */
  function RejectionEntry(file: File): string
    requires !FileValidate(file).valid
  {
    file.name + ": " + FileValidate(file).error.value
  }

  /** The files of `batch` the validator accepts, in batch order. */
  function Accepted(batch: seq<File>): (r: seq<File>)
    ensures |r| <= |batch|
    ensures forall i :: 0 <= i < |r| ==> FileValidate(r[i]).valid
    ensures forall f :: f in batch && FileValidate(f).valid ==> f in r
    ensures forall f :: f in r ==> f in batch
  {
    if batch == [] then []
    else
      var last := batch[|batch| - 1];
      Accepted(batch[..|batch| - 1]) + (if FileValidate(last).valid then [last] else [])
  }

  /** The files of `batch` the validator refuses, in batch order. */
  function Rejected(batch: seq<File>): (r: seq<File>)
    ensures |r| <= |batch|
    ensures forall i :: 0 <= i < |r| ==> !FileValidate(r[i]).valid
    ensures forall f :: f in batch && !FileValidate(f).valid ==> f in r
    ensures forall f :: f in r ==> f in batch
  {
    if batch == [] then []
    else
      var last := batch[|batch| - 1];
      Rejected(batch[..|batch| - 1]) + (if FileValidate(last).valid then [] else [last])
  }

  /** One entry per refused file, in batch order. */
  function RejectionEntries(batch: seq<File>): (r: seq<string>)
    ensures |r| == |Rejected(batch)|
    ensures forall i :: 0 <= i < |r| ==> r[i] == RejectionEntry(Rejected(batch)[i])
  {
    if batch == [] then []
    else
      var last := batch[|batch| - 1];
      RejectionEntries(batch[..|batch| - 1]) + (if FileValidate(last).valid then [] else [RejectionEntry(last)])
  }

  /** Accepted and refused files together are exactly the batch. */
  lemma {:induction false} PartitionBatch(batch: seq<File>)
    ensures multiset(Accepted(batch)) + multiset(Rejected(batch)) == multiset(batch)
    ensures |Accepted(batch)| + |Rejected(batch)| == |batch|
  {
    if batch != [] {
      var init, last := batch[..|batch| - 1], batch[|batch| - 1];
      PartitionBatch(init);
      assert batch == init + [last];
    }
  }

  /** Intake keeps the batch order: accepting from two consecutive batches is
      accepting from each in turn. */
  lemma {:induction false} AcceptedAppend(a: seq<File>, b: seq<File>)
    ensures Accepted(a + b) == Accepted(a) + Accepted(b)
  {
    if b == [] {
      assert a + b == a;
    } else {
      var init, last := b[..|b| - 1], b[|b| - 1];
      assert (a + b)[..|a + b| - 1] == a + init;
      assert (a + b)[|a + b| - 1] == last;
      AcceptedAppend(a, init);
    }
  }

  /** Every entry names a file, so the joined message is empty exactly when
      nothing was refused. */
  lemma ErrorEmptyIff(batch: seq<File>)
    ensures Join(RejectionEntries(batch), EntrySeparator) == [] <==> Rejected(batch) == []
  {
    var entries := RejectionEntries(batch);
    forall k | 0 <= k < |entries| ensures entries[k] != [] {
      assert |entries[k]| >= 2;
    }
    JoinEmpty(entries, EntrySeparator);
  }

  datatype Icon = ImageIcon | DocumentIcon

  /** `getFileIcon`: the image icon for an `image/` type, the document icon
      otherwise. */
  function GetFileIcon(file: File): (icon: Icon)
    ensures icon == ImageIcon <==> StartsWith(file.mediaType, "image/")
  {
    if StartsWith(file.mediaType, "image/") then ImageIcon else DocumentIcon
  }

  /** Among accepted files only the PDF gets the document icon. */
  lemma AcceptedFileIcon(file: File)
    requires FileValidate(file).valid
    ensures GetFileIcon(file) == DocumentIcon <==> file.mediaType == "application/pdf"
  {
    assert "image/jpeg"[..6] == "image/";
    assert "image/jpg"[..6] == "image/";
    assert "application/pdf"[..6][0] != "image/"[0];
  }

  /** `files.filter((_, i) => i !== i)` as written: the callback's own `i`,
      the position, shadows the index argument, so each position is
      compared with itself and nothing is kept. */
  function RemoveFileAsWritten(files: seq<File>, index: int): seq<File>
  {
    KeepPositions(files, 0, (i: int, _: int) => i != i, index)
  }

  /** The entries at positions `j` onwards for which `keep(position, index)`
      holds, in order. */
  function KeepPositions(files: seq<File>, j: nat, keep: (int, int) -> bool, index: int): seq<File>
    requires j <= |files|
    decreases |files| - j
  {
    if j == |files| then []
    else (if keep(j, index) then [files[j]] else []) + KeepPositions(files, j + 1, keep, index)
  }

  /** Whatever index is passed, removal as written empties the list. */
  lemma RemoveFileAsWrittenEmpties(files: seq<File>, index: int)
    ensures RemoveFileAsWritten(files, index) == []
  {
    ShadowedKeepsNothing(files, 0, index);
  }

  lemma {:induction false} ShadowedKeepsNothing(files: seq<File>, j: nat, index: int)
    requires j <= |files|
    ensures KeepPositions(files, j, (i: int, _: int) => i != i, index) == []
    decreases |files| - j
  {
    if j < |files| {
      ShadowedKeepsNothing(files, j + 1, index);
    }
  }

  /** Where the two disagree: with at least two attachments and an index in
      range, the intended removal keeps the others while removal as written
      keeps none. */
  lemma RemovalDiscrepancy(files: seq<File>, index: int)
    requires 0 <= index < |files| && |files| >= 2
    ensures |RemoveAt(files, index)| == |files| - 1 > 0
    ensures RemoveFileAsWritten(files, index) == []
  {
    RemoveFileAsWrittenEmpties(files, index);
  }

  /** `files.filter((_, j) => j !== index)`: the removal the handler is
      meant to perform. */
  function RemoveAt(files: seq<File>, index: int): (r: seq<File>)
    ensures 0 <= index < |files| ==> r == files[..index] + files[index + 1..]
    ensures !(0 <= index < |files|) ==> r == files
  {
    KeepOtherPositions(files, 0, index)
  }

  function KeepOtherPositions(files: seq<File>, j: nat, index: int): (r: seq<File>)
    requires j <= |files|
    ensures r == if j <= index < |files| then files[j..index] + files[index + 1..] else files[j..]
    decreases |files| - j
  {
    if j == |files| then []
    else (if j != index then [files[j]] else []) + KeepOtherPositions(files, j + 1, index)
  }

  /** The component's state: the attachment list it shows and edits, and
      its error line. */
  class Uploader {
    var files: seq<File>
    var error: string

    /** A fresh component over the parent's current list, with no error. */
    constructor (files: seq<File>)
      ensures this.files == files && error == []
    {
      this.files := files;
      error := [];
    }

    /** `handleFiles`: a missing file list changes nothing. Otherwise the
        error is cleared and then set to the joined rejection entries, and
        when some file was accepted `onChange` receives the current list
        followed by the accepted files; `notified` tells whether `onChange`
        was called. */
    method HandleFiles(newFiles: Option<seq<File>>) returns (notified: bool)
      modifies this
      ensures newFiles == None ==> !notified && files == old(files) && error == old(error)
      ensures newFiles.Some? ==>
        && notified == (Accepted(newFiles.value) != [])
        && files == old(files) + Accepted(newFiles.value)
        && error == Join(RejectionEntries(newFiles.value), EntrySeparator)
    {
      if newFiles == None {
        return false;
      }
      var batch := newFiles.value;
      error := [];
      var validFiles: seq<File> := [];
      var errors: seq<string> := [];
      var i := 0;
      while i < |batch|
        invariant 0 <= i <= |batch|
        invariant validFiles == Accepted(batch[..i])
        invariant errors == RejectionEntries(batch[..i])
      {
        var file := batch[i];
        assert batch[..i + 1][..i] == batch[..i];
        assert batch[..i + 1][i] == file;
        var validation := FileValidate(file);
        if validation.valid {
          validFiles := validFiles + [file];
        } else {
          errors := errors + [file.name + ": " + validation.error.value];
        }
        i := i + 1;
      }
      assert batch[..i] == batch;
      if |errors| > 0 {
        error := Join(errors, EntrySeparator);
      }
      notified := |validFiles| > 0;
      if notified {
        files := files + validFiles;
      }
    }

    /** `handleRemoveFile` as written: the filter keeps nothing, so the
        parent receives an empty list whatever the index, and the error is
        cleared. */
    method HandleRemoveFile(index: int)
      modifies this
      ensures files == RemoveFileAsWritten(old(files), index)
      ensures files == [] && error == []
    {
      files := RemoveFileAsWritten(files, index);
      RemoveFileAsWrittenEmpties(old(files), index);
      error := [];
    }

    /** The handler as it is meant to behave: the entry at `index` goes,
        the rest keep their order, and the error is cleared. */
    method HandleRemoveFileIntended(index: int)
      modifies this
      ensures files == RemoveAt(old(files), index)
      ensures 0 <= index < |old(files)| ==> |files| == |old(files)| - 1
      ensures error == []
    {
      files := RemoveAt(files, index);
      error := [];
    }
  }
}
