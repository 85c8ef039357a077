/** The create-room form: field-by-field edits, a reset on close, and a guarded submit. */
module CreateRoom {
  import opened Base

  /** A chosen image file, known only by identity. */
  datatype FileRef = FileRef(id: nat)

  datatype FormData = FormData(name: string, tags: seq<string>, description: string, coverImage: Option<FileRef>)

  /** The text inputs of the form, by their `name` attribute. */
  datatype TextField = NameField | DescriptionField

  const InitialFormData: FormData := FormData("", [], "", None)

  class CreateRoomForm {
    var formData: FormData
    var imagePreview: Option<string>
    /** Every form handed to `onSubmit`, oldest first. */
    var submitted: seq<FormData>
    /** How many times `onClose` was called. */
    var closeCalls: nat

    constructor ()
      ensures formData == InitialFormData && imagePreview == None && submitted == [] && closeCalls == 0
    {
      formData := InitialFormData;
      imagePreview := None;
      submitted := [];
      closeCalls := 0;
    }

    /** Reset the form and the preview, then close. */
    method HandleClose()
      modifies this
      ensures formData == InitialFormData && imagePreview == None
      ensures closeCalls == old(closeCalls) + 1 && submitted == old(submitted)
    {
      formData := InitialFormData;
      imagePreview := None;
      closeCalls := closeCalls + 1;
    }

    /** A text input changed: only the field it names takes the new value. */
    method HandleInputChange(field: TextField, value: string)
      modifies this`formData
      ensures field == NameField ==> formData == old(formData).(name := value)
      ensures field == DescriptionField ==> formData == old(formData).(description := value)
    {
      match field
      case NameField => formData := formData.(name := value);
      case DescriptionField => formData := formData.(description := value);
    }

    method HandleTagsChange(tags: seq<string>)
      modifies this`formData
      ensures formData == old(formData).(tags := tags)
    {
      formData := formData.(tags := tags);
    }

    method HandleFileChange(file: Option<FileRef>, preview: Option<string>)
      modifies this`formData, this`imagePreview
      ensures formData == old(formData).(coverImage := file) && imagePreview == preview
    {
      formData := formData.(coverImage := file);
      imagePreview := preview;
    }

    /** Submit the form as it is (name untrimmed) and close; a blank name does nothing. */
    method HandleSubmit()
      modifies this
      ensures IsBlank(old(formData).name) ==>
        formData == old(formData) && imagePreview == old(imagePreview)
        && submitted == old(submitted) && closeCalls == old(closeCalls)
      ensures !IsBlank(old(formData).name) ==>
        submitted == old(submitted) + [old(formData)] && closeCalls == old(closeCalls) + 1
        && formData == InitialFormData && imagePreview == None
    {
      if IsBlank(formData.name) {
        return;
      }
      submitted := submitted + [formData];
      HandleClose();
    }
  }

  /** Every submitted form has a name that is not blank. */
  method SubmitOnlyNamed(f: CreateRoomForm, name: string, description: string)
    modifies f
    ensures forall i :: |old(f.submitted)| <= i < |f.submitted| ==> !IsBlank(f.submitted[i].name)
    ensures IsBlank(name) ==> f.submitted == old(f.submitted)
  {
    f.HandleInputChange(NameField, name);
    f.HandleInputChange(DescriptionField, description);
    f.HandleSubmit();
  }
}
