/**
  The CV upload page: a profile form whose fields are edited one at a time, and
  a file input that accepts only a PDF or Word document of at most 5 MiB.
*/
module CVUpload {
  import opened Wrappers
  import opened Forms

  /** A form field holds text, or a boolean for the one checkbox. */
  datatype FieldValue = Text(text: string) | Flag(flag: bool)

  /** The part of a change event's target that the handler reads. */
  datatype InputTarget = InputTarget(name: string, value: string, inputType: string, checked: bool)

  /** A selected file, as far as the page looks at it: its declared MIME type and its size in bytes. */
  datatype File = File(name: string, mimeType: string, size: nat)

  /** The initial record of the profile form. */
  function InitialForm(): (f: map<string, FieldValue>)
    ensures f.Keys == {"fullName", "email", "phone", "portfolio", "experience", "education", "skills",
                       "specialization", "availability", "expectedSalary", "location", "relocate", "about"}
    ensures f["specialization"] == Text("web") && f["availability"] == Text("full-time")
    ensures f["relocate"] == Flag(false)
    ensures forall k | k in f && k !in {"specialization", "availability", "relocate"} :: f[k] == Text("")
  {
    map[
      "fullName" := Text(""),
      "email" := Text(""),
      "phone" := Text(""),
      "portfolio" := Text(""),
      "experience" := Text(""),
      "education" := Text(""),
      "skills" := Text(""),
      "specialization" := Text("web"),
      "availability" := Text("full-time"),
      "expectedSalary" := Text(""),
      "location" := Text(""),
      "relocate" := Flag(false),
      "about" := Text("")
    ]
  }

  /** The value `handleChange` stores: the checked state of a checkbox, the text of any other input. */
  function EventValue(target: InputTarget): (v: FieldValue)
    ensures v.Flag? <==> target.inputType == "checkbox"
    ensures v.Flag? ==> v.flag == target.checked
    ensures v.Text? ==> v.text == target.value
  {
    if target.inputType == "checkbox" then Flag(target.checked) else Text(target.value)
  }

  /** The MIME types of a PDF, a legacy Word document and an Office Open XML Word document. */
  const AcceptedTypes: seq<string> := [
    "application/pdf",
    "application/msword",
    "application/vnd.openxmlformats-officedocument.wordprocessingml.document"
  ]

  /** 5 MiB, the largest size accepted. */
  const MaxSize: nat := 5 * 1024 * 1024

  const TypeError := "Please upload a PDF or Word document"
  const SizeError := "File size must be less than 5MB"

  /** The verdict on a selected file. */
  datatype FileCheck = Accepted | Rejected(message: string)

  /** The file may be kept: one of the accepted types, and no larger than the limit. */
  predicate Acceptable(f: File)
  {
    f.mimeType in AcceptedTypes && f.size <= MaxSize
  }

  /**
    The checks of `handleFileChange`, in their order: the declared type first,
    then the size. A file of the wrong type is reported as such whatever its size.
  */
  function CheckFile(f: File): (r: FileCheck)
    ensures r == Accepted <==> Acceptable(f)
    ensures r == Rejected(TypeError) <==> f.mimeType !in AcceptedTypes
    ensures r == Rejected(SizeError) <==> f.mimeType in AcceptedTypes && f.size > MaxSize
  {
    if f.mimeType !in AcceptedTypes then Rejected(TypeError)
    else if f.size > MaxSize then Rejected(SizeError)
    else Accepted
  }

  /** The page's state: the form record, the kept file (or none) and the message under the file input. */
  class CVUploadPage {
    var formData: map<string, FieldValue>
    var file: Option<File>
    var fileError: string

    /** A kept file has passed the checks, and no error is shown beside it. */
    ghost predicate Valid()
      reads this
    {
      file.Some? ==> Acceptable(file.value) && fileError == ""
    }

    constructor ()
      ensures Valid()
      ensures formData == InitialForm() && file == None && fileError == ""
    {
      formData := InitialForm();
      file := None;
      fileError := "";
    }

    /** `handleChange`: one field of the form record set from the event; nothing else changes. */
    method HandleChange(target: InputTarget)
      requires Valid()
      modifies this
      ensures Valid()
      ensures formData == SetField(old(formData), target.name, EventValue(target))
      ensures file == old(file) && fileError == old(fileError)
    {
      formData := SetField(formData, target.name, EventValue(target));
    }

    /**
      `handleFileChange` for the list of selected files. With no file selected
      nothing changes; otherwise the first file is kept if it passes the checks,
      and dropped, together with any file kept before, with the message if not.
    */
    method HandleFileChange(files: seq<File>)
      requires Valid()
      modifies this
      ensures Valid()
      ensures formData == old(formData)
      ensures files == [] ==> file == old(file) && fileError == old(fileError)
      ensures files != [] && CheckFile(files[0]).Rejected? ==>
                file == None && fileError == CheckFile(files[0]).message
      ensures files != [] && CheckFile(files[0]).Accepted? ==>
                file == Some(files[0]) && fileError == ""
    {
      if files == [] {
        return;
      }
      var selected := files[0];
      if selected.mimeType !in AcceptedTypes {
        fileError := TypeError;
        file := None;
        return;
      }
      if selected.size > MaxSize {
        fileError := SizeError;
        file := None;
        return;
      }
      fileError := "";
      file := Some(selected);
    }

    /** The "Remove file" button: the kept file is dropped; the form and the message stay. */
    method RemoveFile()
      requires Valid()
      modifies this
      ensures Valid()
      ensures file == None
      ensures formData == old(formData) && fileError == old(fileError)
    {
      file := None;
    }

    /**
      `handleSubmit`: hands the form record and the kept file to the outside
      world and leaves both in place; the form is not reset.
    */
    method HandleSubmit() returns (submitted: map<string, FieldValue>, uploaded: Option<File>)
      requires Valid()
      ensures submitted == formData && uploaded == file
      ensures uploaded.Some? ==> Acceptable(uploaded.value)
    {
      submitted := formData;
      uploaded := file;
    }
  }

  /** Verdicts on a few concrete files, at and around the size limit. */
  lemma CheckExamples()
    ensures CheckFile(File("cv.pdf", "application/pdf", 4000000)) == Accepted
    ensures CheckFile(File("cv.png", "image/png", 1000)) == Rejected(TypeError)
    ensures CheckFile(File("cv.pdf", "application/pdf", 6000000)) == Rejected(SizeError)
    ensures CheckFile(File("cv.png", "image/png", 6000000)) == Rejected(TypeError)
    ensures CheckFile(File("cv.docx", AcceptedTypes[2], MaxSize)) == Accepted
    ensures CheckFile(File("cv.doc", AcceptedTypes[1], MaxSize + 1)) == Rejected(SizeError)
  {
  }
}
