/**
 * The four-step "report a lost item" wizard: the form record, the per-step validity rule, the
 * image list, and the step counter driven by Continue and Back.
 */
module PostLost {
  import opened Wrappers
  import opened Domain
  import Directory
  import Seqs

  datatype LostForm = LostForm(
    title: string,
    category: string,
    description: string,
    date: string,
    time: string,
    location: string,
    images: seq<string>,
    reward: Option<nat>,
    urgency: string,
    contactPreference: string)

  const EmptyForm: LostForm := LostForm("", "", "", "", "", "", [], None, "medium", "email")

  /** A change made through one of the form's inputs (text fields, category tiles, urgency buttons). */
  datatype LostInput =
    | Title(title: string)
    | Category(category: string)
    | Description(description: string)
    | Date(date: string)
    | Time(time: string)
    | Location(location: string)
    | Reward(reward: Option<nat>)
    | Urgency(urgency: string)
    | ContactPreference(contactPreference: string)

  /** The step whose screen shows the input. */
  function InputStep(input: LostInput): (k: int)
    ensures 1 <= k <= 4 && k != 3
  {
    match input
    case Title(_) => 1
    case Category(_) => 1
    case Description(_) => 2
    case Date(_) => 2
    case Time(_) => 2
    case Location(_) => 2
    case Reward(_) => 4
    case Urgency(_) => 4
    case ContactPreference(_) => 4
  }

  /**
   * `handleInputChange`: one field takes the typed value. The fields of the other steps stay as
   * they were, and so do the uploaded images.
   */
  function Apply(f: LostForm, input: LostInput): (r: LostForm)
    ensures r.images == f.images
    ensures InputStep(input) != 1 ==> r.title == f.title && r.category == f.category
    ensures InputStep(input) != 2 ==> r.description == f.description && r.date == f.date && r.time == f.time && r.location == f.location
    ensures InputStep(input) != 4 ==> r.reward == f.reward && r.urgency == f.urgency && r.contactPreference == f.contactPreference
  {
    match input
    case Title(v) => f.(title := v)
    case Category(v) => f.(category := v)
    case Description(v) => f.(description := v)
    case Date(v) => f.(date := v)
    case Time(v) => f.(time := v)
    case Location(v) => f.(location := v)
    case Reward(v) => f.(reward := v)
    case Urgency(v) => f.(urgency := v)
    case ContactPreference(v) => f.(contactPreference := v)
  }

  /** `isStepValid`: the fields a step requires are filled in; steps 3 and 4 need nothing; other steps are invalid. */
  function StepValid(step: int, f: LostForm): (ok: bool)
    ensures ok ==> 1 <= step <= 4
    ensures step == 3 ==> ok
    ensures f == EmptyForm ==> (ok <==> step == 3 || step == 4)
  {
    if step == 1 then f.title != "" && f.category != ""
    else if step == 2 then f.description != "" && f.date != "" && f.location != ""
    else step == 3 || step == 4
  }

  /** An input changes nothing another step's validity depends on. */
  lemma EditKeepsOtherSteps(f: LostForm, input: LostInput, k: int)
    requires k != InputStep(input)
    ensures StepValid(k, Apply(f, input)) == StepValid(k, f)
  {
  }

  /** No step's validity depends on the uploaded images. */
  lemma ImagesIrrelevant(f: LostForm, images: seq<string>, k: int)
    ensures StepValid(k, f.(images := images)) == StepValid(k, f)
  {
  }

  /** The object handed to `addItem`: the form with `type = 'lost'` and the cover image. */
  function ToDraft(f: LostForm): (d: Draft)
    ensures d.kind == Lost && d.image == CoverImage(f.images)
    ensures d.title == f.title && d.category == f.category && d.description == f.description
    ensures d.date == f.date && d.time == f.time && d.location == f.location && d.images == f.images
    ensures d.reward == f.reward && d.urgency == f.urgency && d.contactPreference == f.contactPreference
  {
    Draft(Lost, f.title, f.description, f.category, f.location, f.date, f.time, CoverImage(f.images),
      f.images, f.urgency, f.reward, "", "", f.contactPreference, "", "")
  }

  /** Once steps 1 and 2 are valid, the draft has every field a lost item needs. */
  lemma ValidStepsMakeComplete(f: LostForm)
    requires StepValid(1, f) && StepValid(2, f)
    ensures Complete(ToDraft(f))
  {
  }

  /**
   * What reaches the backend for a posted lost item: a lost, active record dated today and
   * contactable at the session user, whatever date the user typed in.
   */
  lemma PostedRecord(f: LostForm, today: string, user: Option<User>)
    ensures var sent := Directory.Stamp(ToDraft(f), today, user);
      && sent.kind == Lost && sent.status == "active" && sent.date == today
      && sent.contact == Directory.ContactFor(user) && sent.title == f.title && sent.image == CoverImage(f.images)
  {
  }

  class Wizard {
    var step: int
    var loading: bool
    var form: LostForm

    /** The counter is in 1..4 and the user only got past a step while it was valid. */
    ghost predicate Valid()
      reads this
    {
      1 <= step <= 4 && forall k :: 1 <= k < step ==> StepValid(k, form)
    }

    /** `disabled={!isStepValid() || loading}`. */
    function SubmitDisabled(): (disabled: bool)
      reads this
      ensures loading ==> disabled
      ensures !disabled ==> StepValid(step, form)
    {
      !StepValid(step, form) || loading
    }

    constructor ()
      ensures Valid() && step == 1 && !loading && form == EmptyForm
    {
      step := 1;
      loading := false;
      form := EmptyForm;
    }

    /** `handleInputChange` and the tile/button handlers; an input exists only on its own step. */
    method Edit(input: LostInput)
      requires Valid() && InputStep(input) == step
      modifies this`form
      ensures Valid() && form == Apply(old(form), input)
    {
      form := Apply(form, input);
      forall k | 1 <= k < step
        ensures StepValid(k, form)
      {
        EditKeepsOtherSteps(old(form), input, k);
      }
    }

    /** `handleImageUpload`: the new previews go after the existing ones. */
    method UploadImages(urls: seq<string>)
      requires Valid() && step == 3
      modifies this`form
      ensures Valid() && form == old(form).(images := old(form).images + urls)
    {
      form := form.(images := form.images + urls);
      forall k | 1 <= k < step
        ensures StepValid(k, form)
      {
        ImagesIrrelevant(old(form), form.images, k);
      }
    }

    /** `removeImage(index)`: drops exactly that position and keeps the others in order. */
    method RemoveImage(index: int)
      requires Valid() && step == 3
      modifies this`form
      ensures Valid() && form == old(form).(images := Seqs.DropIndex(old(form).images, index))
    {
      form := form.(images := Seqs.DropIndex(form.images, index));
      forall k | 1 <= k < step
        ensures StepValid(k, form)
      {
        ImagesIrrelevant(old(form), form.images, k);
      }
    }

    /**
     * `handleSubmit`: before the last step it only advances; on the last step it starts
     * loading and schedules the draft built from the current form, which has every required field.
     */
    method Submit() returns (pending: Option<Draft>)
      requires Valid() && !SubmitDisabled()
      modifies this`step, this`loading
      ensures Valid() && form == old(form)
      ensures old(step) < 4 ==> step == old(step) + 1 && loading == old(loading) && pending == None
      ensures old(step) == 4 ==> step == 4 && loading && pending == Some(ToDraft(form))
      ensures pending.Some? ==> Complete(pending.value)
    {
      if step < 4 {
        step := step + 1;
        pending := None;
      } else {
        loading := true;
        pending := Some(ToDraft(form));
        ValidStepsMakeComplete(form);
      }
    }

    /**
     * The Back button: it steps back, and on the first step it is Cancel and navigates to the
     * dashboard, which is the returned target.
     */
    method Back() returns (target: Option<string>)
      requires Valid()
      modifies this`step
      ensures Valid()
      ensures old(step) > 1 ==> step == old(step) - 1 && target == None
      ensures old(step) == 1 ==> step == 1 && target == Some("/dashboard")
      ensures target.Some? ==> Directory.Route(target.value, true) == Directory.DashboardPage
    {
      if step > 1 {
        step := step - 1;
        target := None;
      } else {
        target := Some("/dashboard");
      }
    }

    /**
     * The delayed part of `handleSubmit` as written: the draft goes to `addItem`, loading ends,
     * and the page navigates to the path built from `addItem`'s return value without awaiting it,
     * which is a pending promise whatever the backend answers.
     */
    method FinishAsWritten(pending: Draft, app: Directory.App, today: string, createItem: Draft -> Result<Item, string>)
      returns (target: string)
      modifies this`loading, app`items
      ensures !loading
      ensures app.items == Directory.AfterCreate(old(app.items), createItem(Directory.Stamp(pending, today, app.user)))
      ensures target == Directory.PromiseItemPath
    {
      var _ := app.AddItem(pending, today, createItem);
      loading := false;
      target := Directory.PromiseItemPath;
    }

    /**
     * The delayed part of `handleSubmit` with `addItem` awaited: loading ends, and the page either
     * navigates to the created item's detail path or stays on the last step reporting the error.
     */
    method Finish(pending: Draft, app: Directory.App, today: string, createItem: Draft -> Result<Item, string>)
      returns (outcome: Result<string, string>)
      modifies this`loading, app`items
      ensures !loading && step == old(step)
      ensures app.items == Directory.AfterCreate(old(app.items), createItem(Directory.Stamp(pending, today, app.user)))
      ensures createItem(Directory.Stamp(pending, today, app.user)).Success? ==>
        outcome == Success(Directory.ItemPath(createItem(Directory.Stamp(pending, today, app.user)).value.id))
      ensures createItem(Directory.Stamp(pending, today, app.user)).Failure? ==>
        outcome == Failure(createItem(Directory.Stamp(pending, today, app.user)).error)
    {
      var r := app.AddItem(pending, today, createItem);
      loading := false;
      match r {
        case Success(id) => outcome := Success(Directory.ItemPath(id));
        case Failure(e) => outcome := Failure(e);
      }
    }
  }
}
