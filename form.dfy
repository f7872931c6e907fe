/**
 The create/edit form: its fields, their validation, the submit that hands
 the trimmed values to the caller and resets the form, and the seeding from
 the post being edited.
 */
module Form {
  import opened Types
  import opened JsString

  const MinTitleLength: nat := 3
  const MinBodyLength: nat := 10

  const TitleRequired: string := "Title is required"
  const TitleTooShort: string := "Title must be at least 3 characters"
  const BodyRequired: string := "Content is required"
  const BodyTooShort: string := "Content must be at least 10 characters"

  /** The check each field gets: required once trimmed, then a minimum
      length measured on the value as typed (untrimmed, in UTF-16 code
      units). */
  function FieldError(value: string, minLength: nat, required: string, tooShort: string): Option<string>
  {
    if Trim(value) == [] then Some(required)
    else if Utf16Length(value) < minLength then Some(tooShort)
    else None
  }

  /** A blank value is reported as missing, a non-blank one that is too
      short as too short, and the value passes exactly when it is neither. */
  lemma FieldErrorSpec(value: string, minLength: nat, required: string, tooShort: string)
    ensures IsBlank(value) ==> FieldError(value, minLength, required, tooShort) == Some(required)
    ensures !IsBlank(value) && Utf16Length(value) < minLength ==>
      FieldError(value, minLength, required, tooShort) == Some(tooShort)
    ensures FieldError(value, minLength, required, tooShort).None? <==>
      !IsBlank(value) && Utf16Length(value) >= minLength
  {
    TrimEmptyIffBlank(value);
  }

  /** The title's entry in `validateBody`. */
  function TitleError(title: string): Option<string>
  {
    FieldError(title, MinTitleLength, TitleRequired, TitleTooShort)
  }

  /** The body's entry in `validateBody`. */
  function BodyError(body: string): Option<string>
  {
    FieldError(body, MinBodyLength, BodyRequired, BodyTooShort)
  }

  /** The title is reported missing when blank and too short below three
      code units; otherwise it passes. */
  lemma TitleErrorSpec(title: string)
    ensures IsBlank(title) ==> TitleError(title) == Some("Title is required")
    ensures !IsBlank(title) && Utf16Length(title) < 3 ==>
      TitleError(title) == Some("Title must be at least 3 characters")
    ensures TitleError(title).None? <==> !IsBlank(title) && Utf16Length(title) >= 3
  {
    FieldErrorSpec(title, MinTitleLength, TitleRequired, TitleTooShort);
  }

  /** The body is reported missing when blank and too short below ten code
      units; otherwise it passes. */
  lemma BodyErrorSpec(body: string)
    ensures IsBlank(body) ==> BodyError(body) == Some("Content is required")
    ensures !IsBlank(body) && Utf16Length(body) < 10 ==>
      BodyError(body) == Some("Content must be at least 10 characters")
    ensures BodyError(body).None? <==> !IsBlank(body) && Utf16Length(body) >= 10
  {
    FieldErrorSpec(body, MinBodyLength, BodyRequired, BodyTooShort);
  }

  /** The length is measured before trimming, so surrounding blanks count:
      "  a" passes the title check and is submitted as the one-character
      title "a". */
  lemma UntrimmedLengthCounts()
    ensures TitleError("  a").None?
    ensures Trim("  a") == "a"
  {
    TitleErrorSpec("  a");
    assert !IsBlank("  a") by {
      assert !IsWhitespace("  a"[2]);
    }
    assert TrimStart("  a") == "a" by {
      assert "  a"[1..] == " a";
      assert " a"[1..] == "a";
    }
    assert TrimEnd("a") == "a";
  }

  /** Both fields pass their checks, so `validateBody` returns true. */
  predicate Passes(title: string, body: string)
  {
    TitleError(title).None? && BodyError(body).None?
  }

  datatype Field = Title | Body

  /** What `onSubmit` receives. */
  datatype Submission = Submission(title: string, body: string, files: seq<File>)

  /** The form component's state. */
  class PostForm {
    var title: string
    var body: string
    var files: seq<File>
    var titleError: Option<string>
    var bodyError: Option<string>

    /** The initial state: empty fields, no files, no errors. */
    constructor ()
      ensures title == [] && body == [] && files == []
      ensures titleError == None && bodyError == None
    {
      title, body, files := [], [], [];
      titleError, bodyError := None, None;
    }

    /** The effect on `post`: editing a post copies its title and body and
        keeps the attachments; no post clears both fields and the
        attachments. Errors are left alone either way. */
    method SeedFrom(post: Option<Post>)
      modifies this
      ensures post.Some? ==> title == post.value.title && body == post.value.body && files == old(files)
      ensures post == None ==> title == [] && body == [] && files == []
      ensures titleError == old(titleError) && bodyError == old(bodyError)
    {
      if post.Some? {
        title, body := post.value.title, post.value.body;
      } else {
        title, body := [], [];
        files := [];
      }
    }

    /** `handleChage`: the edited field takes the new value and loses its
        error; the other field and its error are untouched. */
    method HandleChange(field: Field, value: string)
      modifies this
      ensures field == Title ==> title == value && titleError == None && body == old(body) && bodyError == old(bodyError)
      ensures field == Body ==> body == value && bodyError == None && title == old(title) && titleError == old(titleError)
      ensures files == old(files)
    {
      match field
      case Title =>
        title := value;
        if titleError.Some? {
          titleError := None;
        }
      case Body =>
        body := value;
        if bodyError.Some? {
          bodyError := None;
        }
    }

    /** `validateBody`: the errors become the two checks' results, and the
        form is valid exactly when neither produced an entry. */
    method ValidateBody() returns (ok: bool)
      modifies this
      ensures titleError == TitleError(title) && bodyError == BodyError(body)
      ensures ok <==> Passes(title, body)
      ensures ok <==> titleError.None? && bodyError.None?
      ensures title == old(title) && body == old(body) && files == old(files)
    {
      var newTitleError, newBodyError := TitleError(title), BodyError(body);
      titleError, bodyError := newTitleError, newBodyError;
      ok := newTitleError.None? && newBodyError.None?;
    }

    /** `handleSubmit`: an invalid form only shows its errors; a valid one
        hands the trimmed title and body and the attachments to `onSubmit`
        and is reset. */
    method HandleSubmit() returns (submitted: Option<Submission>)
      modifies this
      ensures submitted.Some? <==> Passes(old(title), old(body))
      ensures submitted.Some? ==> submitted.value == Submission(Trim(old(title)), Trim(old(body)), old(files))
      ensures submitted.Some? ==> submitted.value.title != "" && submitted.value.body != ""
      ensures submitted.Some? ==> title == "" && body == "" && files == [] && titleError == None && bodyError == None
      ensures submitted == None ==> title == old(title) && body == old(body) && files == old(files)
      ensures submitted == None ==> titleError == TitleError(old(title)) && bodyError == BodyError(old(body))
    {
      var ok := ValidateBody();
      if !ok {
        return None;
      }
      submitted := Some(Submission(Trim(title), Trim(body), files));
      title, body, files := "", "", [];
      titleError, bodyError := None, None;
    }

    /** `handleFilesChange`: the attachment picker's `onChange`. */
    method HandleFilesChange(newFiles: seq<File>)
      modifies this
      ensures files == newFiles
      ensures title == old(title) && body == old(body)
      ensures titleError == old(titleError) && bodyError == old(bodyError)
    {
      files := newFiles;
    }
  }
}
