/**
 * The merchant onboarding form (components/MerchantOnboardingForm.tsx): the
 * form record, its error message and its submitting flag, changed by
 * `handleChange` and `handleSubmit`. The `onCreate` callback is outside the
 * model: each call is recorded in `created`, and whether the awaited call
 * throws is a parameter of the step that settles it.
 */
module OnboardingForm {
  import opened Wrappers

  /** `MerchantOnboardingInput`. The category is whatever string the select hands over. */
  datatype OnboardingInput = OnboardingInput(
    name: string,
    email: string,
    category: string,
    branchName: string,
    branchLocation: string)

  /** The keys `handleChange` accepts. */
  datatype Field = Name | Email | Category | BranchName | BranchLocation

  const Blank := OnboardingInput("", "", "Grocery", "", "")
  const RequiredFieldsMessage := "Fill every required field to onboard a merchant."
  const CreateFailedMessage := "Failed to create merchant. Try again."

  function Get(f: OnboardingInput, field: Field): string {
    match field
    case Name => f.name
    case Email => f.email
    case Category => f.category
    case BranchName => f.branchName
    case BranchLocation => f.branchLocation
  }

  /** The named field takes the value and every other field keeps its own. */
  function WithField(f: OnboardingInput, field: Field, value: string): (r: OnboardingInput)
    ensures Get(r, field) == value
    ensures forall other :: other != field ==> Get(r, other) == Get(f, other)
  {
    match field
    case Name => f.(name := value)
    case Email => f.(email := value)
    case Category => f.(category := value)
    case BranchName => f.(branchName := value)
    case BranchLocation => f.(branchLocation := value)
  }

  /** The submit guard: name, email, branch name and branch location are all non-empty. */
  predicate Complete(f: OnboardingInput) {
    f.name != "" && f.email != "" && f.branchName != "" && f.branchLocation != ""
  }

  /** The guard reads every field except the category. */
  lemma CompleteIgnoresCategory(f: OnboardingInput, value: string)
    ensures Complete(WithField(f, Category, value)) == Complete(f)
    ensures Complete(f) <==> forall field :: field != Category ==> Get(f, field) != ""
  {
    assert Get(f, Name) == f.name && Get(f, Email) == f.email;
    assert Get(f, BranchName) == f.branchName && Get(f, BranchLocation) == f.branchLocation;
  }

  /** The blank form cannot be submitted, and clearing any required field blocks a submit. */
  lemma ClearingRequiredFieldBlocksSubmit(f: OnboardingInput, field: Field)
    requires field != Category
    ensures !Complete(Blank)
    ensures !Complete(WithField(f, field, ""))
  {
    CompleteIgnoresCategory(WithField(f, field, ""), "");
  }

  /** The component's state. */
  class Form {
    var form: OnboardingInput
    var isSubmitting: bool
    var error: Option<string>
    /** The arguments of every `onCreate` call so far, oldest first. */
    var created: seq<OnboardingInput>

    /** Empty text fields, category 'Grocery', no error, not submitting, nothing created. */
    constructor ()
      ensures form == Blank && !isSubmitting && error == None && created == []
    {
      form := Blank;
      isSubmitting := false;
      error := None;
      created := [];
    }

    /** `handleChange`: only the form changes, and only in the named field. */
    method HandleChange(field: Field, value: string)
      modifies this
      ensures form == WithField(old(form), field, value)
      ensures isSubmitting == old(isSubmitting) && error == old(error) && created == old(created)
    {
      form := WithField(form, field, value);
    }

    /**
     * The synchronous part of `handleSubmit`, up to the awaited `onCreate`.
     * An incomplete form sets the required-fields message and returns
     * without calling; a complete one clears the error, sets the submitting
     * flag and calls `onCreate` once with the current form.
     */
    method BeginSubmit() returns (called: bool)
      modifies this
      ensures called == Complete(old(form)) && form == old(form)
      ensures !called ==> error == Some(RequiredFieldsMessage) && isSubmitting == old(isSubmitting) && created == old(created)
      ensures called ==> error == None && isSubmitting && created == old(created) + [form]
    {
      if !Complete(form) {
        error := Some(RequiredFieldsMessage);
        return false;
      }
      error := None;
      isSubmitting := true;
      created := created + [form];
      return true;
    }

    /** The `catch` and `finally` after the awaited call: a failure sets the fixed message; the flag always drops. */
    method SettleSubmit(failed: bool)
      modifies this
      ensures !isSubmitting
      ensures error == (if failed then Some(CreateFailedMessage) else old(error))
      ensures form == old(form) && created == old(created)
    {
      if failed {
        error := Some(CreateFailedMessage);
      }
      isSubmitting := false;
    }

    /** A whole `handleSubmit`, with `createFails` saying whether the awaited call throws. */
    method HandleSubmit(createFails: bool)
      modifies this
      ensures form == old(form)
      ensures !Complete(old(form)) ==>
        error == Some(RequiredFieldsMessage) && isSubmitting == old(isSubmitting) && created == old(created)
      ensures Complete(old(form)) ==>
        !isSubmitting && created == old(created) + [old(form)] &&
        error == (if createFails then Some(CreateFailedMessage) else None)
    {
      var called := BeginSubmit();
      if called {
        SettleSubmit(createFails);
      }
    }
  }
}
