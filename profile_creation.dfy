/** The three-step profile wizard: photo, basic information, about. */
module ProfileCreation {

  /** The `profileData` cell. */
  datatype ProfileData = ProfileData(
    avatar: string, displayName: string, username: string, bio: string,
    location: string, website: string, birthday: string)

  const EmptyProfile := ProfileData("", "", "", "", "", "", "")

  /** The `name` attributes of the inputs wired to `handleInputChange`. */
  datatype Field = DisplayName | Username | Bio | Location | Website | Birthday

  /** The value a field of the profile has. */
  function Get(p: ProfileData, f: Field): string {
    match f
    case DisplayName => p.displayName
    case Username => p.username
    case Bio => p.bio
    case Location => p.location
    case Website => p.website
    case Birthday => p.birthday
  }

  /** `handleInputChange`: the named field takes the new value; every other field, the avatar included, keeps its own. */
  function Set(p: ProfileData, f: Field, value: string): (r: ProfileData)
    ensures Get(r, f) == value
    ensures forall g :: g != f ==> Get(r, g) == Get(p, g)
    ensures r.avatar == p.avatar
  {
    match f
    case DisplayName => p.(displayName := value)
    case Username => p.(username := value)
    case Bio => p.(bio := value)
    case Location => p.(location := value)
    case Website => p.(website := value)
    case Birthday => p.(birthday := value)
  }

  /** `handleNext`: advance unless already on the last step. */
  function NextStep(step: int): int {
    if step < 3 then step + 1 else step
  }

  /** `handlePrevious`: go back unless already on the first step. */
  function PreviousStep(step: int): int {
    if step > 1 then step - 1 else step
  }

  /** Both moves keep the step within 1..3. */
  lemma StepsStayInRange(step: int)
    requires 1 <= step <= 3
    ensures 1 <= NextStep(step) <= 3 && 1 <= PreviousStep(step) <= 3
    ensures step == 3 ==> NextStep(step) == step
    ensures step == 1 ==> PreviousStep(step) == step
  {
  }

  /** From step 1 or 2, next and then previous comes back. */
  lemma NextThenPrevious(step: int)
    requires 1 <= step < 3
    ensures PreviousStep(NextStep(step)) == step
  {
  }

  /** A button that moves the wizard. */
  datatype Move = Next | Previous

  /** The step after the moves `moves`, made in order. */
  function Run(step: int, moves: seq<Move>): int
    decreases |moves|
  {
    if moves == [] then step
    else Run(if moves[0] == Next then NextStep(step) else PreviousStep(step), moves[1..])
  }

  /** Whatever buttons are pressed, the wizard never leaves steps 1..3. */
  lemma {:induction false} RunStaysInRange(step: int, moves: seq<Move>)
    requires 1 <= step <= 3
    ensures 1 <= Run(step, moves) <= 3
    decreases |moves|
  {
    if moves != [] {
      StepsStayInRange(step);
      RunStaysInRange(if moves[0] == Next then NextStep(step) else PreviousStep(step), moves[1..]);
    }
  }

  /** The step-2 Continue button is disabled while the display name or the username is empty. */
  predicate ContinueDisabled(p: ProfileData) {
    p.displayName == "" || p.username == ""
  }

  /** The wizard page's state (the avatar preview and the upload that fills it are not modelled). */
  class ProfileWizard {
    var profileData: ProfileData
    var step: int

    ghost predicate Valid()
      reads this
    {
      1 <= step <= 3
    }

    constructor ()
      ensures Valid() && step == 1 && profileData == EmptyProfile
    {
      profileData := EmptyProfile;
      step := 1;
    }

    method HandleNext()
      requires Valid()
      modifies this
      ensures Valid() && step == NextStep(old(step)) && profileData == old(profileData)
    {
      if step < 3 {
        step := step + 1;
      }
    }

    method HandlePrevious()
      requires Valid()
      modifies this
      ensures Valid() && step == PreviousStep(old(step)) && profileData == old(profileData)
    {
      if step > 1 {
        step := step - 1;
      }
    }

    method HandleInputChange(f: Field, value: string)
      requires Valid()
      modifies this
      ensures Valid() && step == old(step)
      ensures profileData == Set(old(profileData), f, value)
    {
      profileData := Set(profileData, f, value);
    }

    /** A click on step 2's Continue: it reaches `handleNext` only when both names are filled in. */
    method ContinueFromBasicInfo()
      requires Valid() && step == 2
      modifies this
      ensures Valid() && profileData == old(profileData)
      ensures step == if old(profileData).displayName != "" && old(profileData).username != "" then 3 else 2
    {
      if !ContinueDisabled(profileData) {
        HandleNext();
      }
    }
  }
}
