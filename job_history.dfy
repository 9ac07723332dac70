/** The job history list (components/job-history.tsx): one row per
    collection job, with an inline editor for the title. At most one row is
    edited at a time; a row being edited does not react as a selection. */
module JobHistory {
  import opened Wrappers
  import opened Text

  /** A title change handed to `onTitleChange`. */
  datatype Rename = Rename(jobId: string, title: string)

  class Editor {
    /** The job whose title is being edited, if any. */
    var editingId: Option<string>
    /** The editor's text. */
    var editValue: string

    constructor()
      ensures editingId == None && editValue == ""
    {
      editingId := None;
      editValue := "";
    }

    /** `startEdit(jobId, currentTitle)` */
    method StartEdit(jobId: string, currentTitle: string)
      modifies this
      ensures editingId == Some(jobId) && editValue == currentTitle
    {
      editingId := Some(jobId);
      editValue := currentTitle;
    }

    /** The editor's `onChange`. */
    method SetEditValue(text: string)
      modifies this`editValue
      ensures editValue == text
    {
      editValue := text;
    }

    /** `confirmEdit(jobId)`: the rename is reported only for a non-blank
        value, trimmed; edit mode ends either way and the editor's text is
        left as it was. */
    method ConfirmEdit(jobId: string) returns (rename: Option<Rename>)
      modifies this`editingId
      ensures editingId == None
      ensures rename.None? <==> AllSpace(editValue)
      ensures rename.Some? ==> rename.value == Rename(jobId, Trim(editValue)) && rename.value.title != ""
    {
      NonBlankSpec(editValue);
      match NonBlank(editValue) {
        case Some(t) => rename := Some(Rename(jobId, t));
        case None => rename := None;
      }
      editingId := None;
    }

    /** `cancelEdit` */
    method CancelEdit()
      modifies this
      ensures editingId == None && editValue == ""
    {
      editingId := None;
      editValue := "";
    }

    /** A click on a row, or Enter on it: the job selected, which is the
        row's job unless that very job is being edited. */
    method Activate(jobId: string) returns (selected: Option<string>)
      ensures selected.Some? <==> editingId != Some(jobId)
      ensures selected.Some? ==> selected.value == jobId
    {
      if editingId != Some(jobId) {
        selected := Some(jobId);
      } else {
        selected := None;
      }
    }
  }
}
