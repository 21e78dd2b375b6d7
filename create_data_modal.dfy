/** The local state of the creation form
    (components/knowledge-base/create-data-modal.tsx): the form fields, the
    tag input and the submitting flag, and the handlers that change them.
    The `onSubmit` callback the parent passes in is a parameter saying
    whether its promise resolved or rejected. */
module CreateDataModal {
  import opened Schema
  import opened TagList

  /** `CreateDataFormData`. */
  datatype FormData = FormData(
    title: string,
    description: string,
    content: string,
    kind: DataType,
    tags: seq<string>,
    metadata: Metadata)

  /** The blank form for a given type. */
  function EmptyForm(kind: DataType): (f: FormData)
    ensures f.title == "" && f.description == "" && f.content == ""
    ensures f.kind == kind && f.tags == [] && f.metadata == map[]
  {
    FormData("", "", "", kind, [], map[])
  }

  /** How the parent's `onSubmit` promise settled. */
  datatype SubmitOutcome = Resolved | Rejected

  /** What `handleSubmit` ends with: the title toast, or success (the
      success toast and `onClose`), or the failure toast. */
  datatype SubmitResult = TitleRequired | Created | Failed

  class CreateDataForm {
    /** The `defaultType` prop. */
    var defaultType: DataType
    var formData: FormData
    var tagInput: string
    var isSubmitting: bool
    /** The form values handed to `onSubmit`, oldest first. */
    ghost var Submitted: seq<FormData>

    /** The tag list is never left with a duplicate or a blank tag. */
    ghost predicate Valid()
      reads this
    {
      WellFormedTags(formData.tags)
    }

    /** The initial state, with `defaultType` defaulting to `Context` at the
        call site. */
    constructor (defaultType: DataType)
      ensures Valid()
      ensures this.defaultType == defaultType && formData == EmptyForm(defaultType)
      ensures tagInput == "" && !isSubmitting && Submitted == []
    {
      this.defaultType := defaultType;
      formData := EmptyForm(defaultType);
      tagInput := "";
      isSubmitting := false;
      Submitted := [];
    }

    /** `handleSubmit`. A blank title stops everything: nothing is handed to
        `onSubmit` and no state changes. Otherwise the form values go to
        `onSubmit`; when it resolves the form is reset to the blank form for
        `defaultType` with an empty tag input, when it rejects the entered
        values are kept. Either way `isSubmitting` ends false. */
    method HandleSubmit(outcome: SubmitOutcome) returns (result: SubmitResult)
      requires Valid()
      modifies this`formData, this`tagInput, this`isSubmitting, this`Submitted
      ensures Valid()
      ensures AllWhitespace(old(formData.title)) <==> result == TitleRequired
      ensures result == TitleRequired ==>
        formData == old(formData) && tagInput == old(tagInput)
        && isSubmitting == old(isSubmitting) && Submitted == old(Submitted)
      ensures result != TitleRequired ==>
        Submitted == old(Submitted) + [old(formData)] && !isSubmitting
      ensures result == Created <==> result != TitleRequired && outcome == Resolved
      ensures result == Created ==> formData == EmptyForm(defaultType) && tagInput == ""
      ensures result == Failed ==> formData == old(formData) && tagInput == old(tagInput)
    {
      if Trim(formData.title) == "" {
        return TitleRequired;
      }
      isSubmitting := true;
      Submitted := Submitted + [formData];
      match outcome {
        case Resolved =>
          formData := EmptyForm(defaultType);
          tagInput := "";
          result := Created;
        case Rejected =>
          result := Failed;
      }
      isSubmitting := false;
    }

    /** `addTag`, run by the plus button and by Enter in the tag input. */
    method AddTag()
      requires Valid()
      modifies this`formData, this`tagInput
      ensures Valid()
      ensures formData == old(formData).(tags := TagList.AddTag(old(formData.tags), old(tagInput)).0)
      ensures tagInput == TagList.AddTag(old(formData.tags), old(tagInput)).1
    {
      AddTagKeepsWellFormed(formData.tags, tagInput);
      var next := TagList.AddTag(formData.tags, tagInput);
      formData := formData.(tags := next.0);
      tagInput := next.1;
    }

    /** `removeTag`, run by clicking a tag's badge. */
    method RemoveTag(tag: string)
      requires Valid()
      modifies this`formData
      ensures Valid()
      ensures formData == old(formData).(tags := TagList.RemoveTag(old(formData.tags), tag))
    {
      RemoveTagKeepsWellFormed(formData.tags, tag);
      formData := formData.(tags := TagList.RemoveTag(formData.tags, tag));
    }

    /** The effect on `[defaultType]`: when the prop takes a new value, the
        form's type follows it and every other field is kept. */
    method SetDefaultType(t: DataType)
      requires Valid()
      modifies this`defaultType, this`formData
      ensures Valid()
      ensures defaultType == t
      ensures formData == if t == old(defaultType) then old(formData) else old(formData).(kind := t)
    {
      if t != defaultType {
        defaultType := t;
        formData := formData.(kind := t);
      }
    }

    /** The title input's change handler. */
    method SetTitle(text: string)
      requires Valid()
      modifies this`formData
      ensures Valid() && formData == old(formData).(title := text)
    {
      formData := formData.(title := text);
    }

    /** The type select's change handler. */
    method SetType(t: DataType)
      requires Valid()
      modifies this`formData
      ensures Valid() && formData == old(formData).(kind := t)
    {
      formData := formData.(kind := t);
    }

    /** The description text area's change handler. */
    method SetDescription(text: string)
      requires Valid()
      modifies this`formData
      ensures Valid() && formData == old(formData).(description := text)
    {
      formData := formData.(description := text);
    }

    /** The content text area's change handler. */
    method SetContent(text: string)
      requires Valid()
      modifies this`formData
      ensures Valid() && formData == old(formData).(content := text)
    {
      formData := formData.(content := text);
    }

    /** The tag input's change handler. */
    method SetTagInput(text: string)
      requires Valid()
      modifies this`tagInput
      ensures Valid() && tagInput == text
    {
      tagInput := text;
    }
  }
}
