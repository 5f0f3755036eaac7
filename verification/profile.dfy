/** The profile screen: the child roster editor and the profile save. */
module Profile {
  import opened Wrappers
  import opened Domain
  import opened Numbers
  import opened Service

  /** The screen's editable state. */
  datatype ProfileForm = ProfileForm(
    name: string,
    phoneNumber: string,
    children: seq<Child>,
    showAddChild: bool,
    childName: string,
    childAge: string)

  datatype ProfileError =
    | MissingChildFields   // child name or age left empty
    | InvalidAge           // age not a number or outside 0..18
    | NameRequired         // no signed-in user or empty profile name
    | SaveFailed           // the profile write threw

  const MinChildAge := 0
  const MaxChildAge := 18

  /** A child's approximate birth date: `today` moved back by `age` years. */
  function BirthDate(today: CalendarDate, age: int): CalendarDate {
    today.(year := today.year - age)
  }

  /**
   * `handleAddChild`: on success the new child is appended and the add-child
   * inputs are cleared and hidden; on failure the form stays as it is (the
   * caller keeps its state and shows an alert).
   */
  function AddChild(form: ProfileForm, today: CalendarDate): (r: Result<ProfileForm, ProfileError>)
    ensures r == Failure(MissingChildFields) <==> form.childName == "" || form.childAge == ""
    ensures r == Failure(InvalidAge) <==>
              form.childName != "" && form.childAge != ""
              && (ParseInt(form.childAge).NaN? || ParseInt(form.childAge).n < MinChildAge
                  || ParseInt(form.childAge).n > MaxChildAge)
    ensures r.Failure? ==> r.error == MissingChildFields || r.error == InvalidAge
    ensures r.Success? ==>
              var age := ParseInt(form.childAge).n;
              && MinChildAge <= age <= MaxChildAge
              && |r.value.children| == |form.children| + 1
              && r.value.children[..|form.children|] == form.children
              && r.value.children[|form.children|] == Child(form.childName, age, BirthDate(today, age))
              && r.value.children[|form.children|].dateOfBirth.year == today.year - age
              && r.value.childName == "" && r.value.childAge == "" && !r.value.showAddChild
              && r.value.name == form.name && r.value.phoneNumber == form.phoneNumber
  {
    if form.childName == "" || form.childAge == "" then Failure(MissingChildFields)
    else
      match ParseInt(form.childAge)
      case NaN => Failure(InvalidAge)
      case Num(age) =>
        if age < MinChildAge || age > MaxChildAge then Failure(InvalidAge)
        else
          var child := Child(form.childName, age, BirthDate(today, age));
          assert (form.children + [child])[..|form.children|] == form.children;
          Success(form.(children := form.children + [child], childName := "", childAge := "", showAddChild := false))
  }

  /** Every age 0..18 typed as its decimal text is accepted with that age. */
  lemma AddChildAcceptsShownAge(form: ProfileForm, today: CalendarDate, age: int)
    requires form.childName != ""
    requires MinChildAge <= age <= MaxChildAge
    ensures var r := AddChild(form.(childAge := Show(age)), today);
      r.Success? && r.value.children == form.children + [Child(form.childName, age, BirthDate(today, age))]
  {
    ParseShowRoundTrip(age, "");
    assert Show(age) + "" == Show(age);
  }

  /**
   * `children.filter((_, i) => i !== index)`: the confirmed branch of
   * `handleRemoveChild`.
   */
  function RemoveChild(children: seq<Child>, index: int): (r: seq<Child>)
    ensures 0 <= index < |children| ==> r == children[..index] + children[index + 1..]
    ensures !(0 <= index < |children|) ==> r == children
    ensures 0 <= index < |children| ==> |r| == |children| - 1
    decreases |children|
  {
    if |children| == 0 then []
    else
      var tail := RemoveChild(children[1..], index - 1);
      if index == 0 then
        tail
      else
        assert 0 < index < |children| ==> [children[0]] + children[1..][..index - 1] == children[..index];
        [children[0]] + tail
  }

  /** Removing the child just added restores the roster. */
  lemma AddThenRemoveLast(form: ProfileForm, today: CalendarDate)
    requires AddChild(form, today).Success?
    ensures RemoveChild(AddChild(form, today).value.children, |form.children|) == form.children
  {
  }

  /**
   * `handleSaveProfile`: needs a signed-in user and a non-empty name, then
   * writes exactly the name, phone number and roster to the user record.
   */
  function SaveProfile(user: Option<AuthUser>, form: ProfileForm, users: UserStore, now: Time)
    : (r: Result<UserStore, ProfileError>)
    ensures r == Failure(NameRequired) <==> user.None? || form.name == ""
    ensures r == Failure(SaveFailed) <==> user.Some? && form.name != "" && user.value.uid !in users
    ensures r.Success? ==>
              var uid := user.value.uid;
              && uid in users && r.value.Keys == users.Keys
              && (forall k :: k in users && k != uid ==> r.value[k] == users[k])
              && r.value[uid] == users[uid].(name := form.name, phoneNumber := Some(form.phoneNumber),
                                             children := form.children, updatedAt := now)
  {
    if user.None? || form.name == "" then Failure(NameRequired)
    else
      match UpdateUser(users, user.value.uid,
                       UserPatch(None, Some(form.name), Some(form.phoneNumber), Some(form.children)), now)
      case Failure(_) => Failure(SaveFailed)
      case Success(s) => Success(s)
  }
}
