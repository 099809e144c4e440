/** The new-task form: a collapsible form whose four fields are posted as a
    create request once the title is not blank and a due date is chosen. */
module TaskForm {
  import opened Wrappers
  import opened JsValue
  import TaskController

  /** The four fields of the form. */
  datatype FormData = FormData(title: string, description: string, priority: string, dueDate: string)

  datatype FieldName = Title | Description | Priority | DueDate

  /** The reset state: empty fields and priority Medium. */
  function EmptyForm(): (d: FormData)
    ensures d.title == "" && d.description == "" && d.dueDate == ""
    ensures d.priority == "Medium"
  {
    FormData("", "", "Medium", "")
  }

  function Get(d: FormData, f: FieldName): string {
    match f
    case Title => d.title
    case Description => d.description
    case Priority => d.priority
    case DueDate => d.dueDate
  }

  /** The submit guard: a title that is not blank after trimming, and a
      chosen due date. */
  predicate Accepted(d: FormData) {
    !Blank(d.title) && d.dueDate != ""
  }

  /** The create request's body: the four fields as strings. */
  function RequestBody(d: FormData): (b: TaskController.CreateBody)
    ensures b.title == Some(JStr(d.title)) && b.dueDate == Some(JStr(d.dueDate))
    ensures b.description == Some(JStr(d.description)) && b.priority == Some(JStr(d.priority))
    ensures b.status.None?
  {
    TaskController.CreateBody(Some(JStr(d.title)), Some(JStr(d.description)),
                              Some(JStr(d.priority)), Some(JStr(d.dueDate)), None)
  }

  /** Whatever the form accepts also passes the server's title-and-due-date
      check; the server then stores the trimmed title, which is not empty. */
  lemma {:induction false} AcceptedPassesServerCheck(d: FormData)
    requires Accepted(d)
    ensures TruthyOpt(RequestBody(d).title) && TruthyOpt(RequestBody(d).dueDate)
    ensures Trim(d.title) != ""
  {
  }

  /** A title of spaces only is refused by the form, although the server's own
      check (on truthiness) would have let it through. */
  lemma {:induction false} BlankTitleRefused(d: FormData)
    requires d.title == "   " && d.dueDate != ""
    ensures !Accepted(d)
    ensures TruthyOpt(RequestBody(d).title)
  {
    assert IsSpace(' ');
    assert TrimStart(d.title) == TrimStart(d.title[1..]);
    assert d.title[1..][1..] == " ";
  }

  class TaskFormState {
    var title: string
    var description: string
    var priority: string
    var dueDate: string
    var showForm: bool

    function Data(): FormData
      reads this
    {
      FormData(title, description, priority, dueDate)
    }

    constructor ()
      ensures Data() == EmptyForm() && !showForm
    {
      title := "";
      description := "";
      priority := "Medium";
      dueDate := "";
      showForm := false;
    }

    /** The "New task" button. */
    method Open()
      modifies this
      ensures showForm && Data() == old(Data())
    {
      showForm := true;
    }

    /** `handleChange`: only the named field changes. */
    method Change(f: FieldName, v: string)
      modifies this
      ensures Get(Data(), f) == v
      ensures forall g :: g != f ==> Get(Data(), g) == Get(old(Data()), g)
      ensures showForm == old(showForm)
    {
      match f
      case Title => title := v;
      case Description => description := v;
      case Priority => priority := v;
      case DueDate => dueDate := v;
    }

    /** `handleSubmit`: a refused form is left as it is; an accepted one is
        sent unchanged (the title untrimmed), then reset and hidden. */
    method Submit() returns (sent: Option<FormData>)
      modifies this
      ensures sent.Some? <==> Accepted(old(Data()))
      ensures sent.Some? ==> sent.value == old(Data()) && Data() == EmptyForm() && !showForm
      ensures sent.None? ==> Data() == old(Data()) && showForm == old(showForm)
    {
      if Blank(title) || dueDate == "" {
        sent := None;
        return;
      }
      sent := Some(Data());
      title, description, priority, dueDate := "", "", "Medium", "";
      showForm := false;
    }

    /** `handleCancel`: the same reset, without sending anything. */
    method Cancel()
      modifies this
      ensures Data() == EmptyForm() && !showForm
    {
      title, description, priority, dueDate := "", "", "Medium", "";
      showForm := false;
    }
  }
}
