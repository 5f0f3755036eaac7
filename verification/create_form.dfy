/** The create-playdate screen: form validation, record construction and reset. */
module CreateForm {
  import opened Wrappers
  import opened Domain
  import opened Numbers
  import opened Service

  /** The form's fields as typed, plus the picked date and map marker. */
  datatype Form = Form(
    title: string,
    description: string,
    locationName: string,
    locationAddress: string,
    date: Time,
    startTime: string,
    endTime: string,
    minAge: string,
    maxAge: string,
    maxParticipants: string,
    marker: Coordinates)

  /** The map's starting marker (central Helsinki). */
  const DefaultMarker := Coordinates(60.1699, 24.9384)

  /** The form as the screen first shows it; `now` is the date picker's start value. */
  function InitialForm(now: Time): Form {
    Form("", "", "", "", now, "14:00", "16:00", "2", "5", "", DefaultMarker)
  }

  /** The "OK" action after creation: every field back to its start value; the marker stays. */
  function Reset(form: Form, now: Time): (f: Form)
    ensures f == InitialForm(now).(marker := form.marker)
  {
    form.(title := "", description := "", locationName := "", locationAddress := "", date := now,
          startTime := "14:00", endTime := "16:00", minAge := "2", maxAge := "5", maxParticipants := "")
  }

  datatype CreateError =
    | MissingFields   // title, location name or address empty
    | NotSignedIn     // no user

  /** JavaScript truthiness of a parsed number: NaN and 0 are false. */
  predicate Truthy(x: Parsed) {
    x.Num? && x.n != 0
  }

  /** `parseInt(text) || fallback` */
  function ParsedOr(text: string, fallback: int): int {
    var x := ParseInt(text);
    if Truthy(x) then x.n else fallback
  }

  /** `ageRange` as the screen builds it: missing, unparsable or zero bounds fall back to 0 and 10. */
  function AgeRangeOf(minAge: string, maxAge: string): (a: AgeRange)
    ensures Truthy(ParseInt(minAge)) ==> a.min == ParseInt(minAge).n
    ensures !Truthy(ParseInt(minAge)) ==> a.min == 0
    ensures Truthy(ParseInt(maxAge)) ==> a.max == ParseInt(maxAge).n
    ensures !Truthy(ParseInt(maxAge)) ==> a.max == 10
  {
    AgeRange(ParsedOr(minAge, 0), ParsedOr(maxAge, 10))
  }

  /** `maxParticipants ? parseInt(maxParticipants) : undefined` */
  function MaxParticipantsOf(text: string): (m: Option<Parsed>)
    ensures m.None? <==> text == ""
    ensures m.Some? ==> m.value == ParseInt(text)
  {
    if text == "" then None else Some(ParseInt(text))
  }

  /**
   * Typed bounds are read back as typed, except that a zero bound is replaced
   * by its fallback: a maximum of "0" becomes 10.
   */
  lemma AgeRangeOfShown(lo: int, hi: int)
    ensures AgeRangeOf(Show(lo), Show(hi)) == AgeRange(lo, if hi == 0 then 10 else hi)
  {
    ParseShowRoundTrip(lo, "");
    ParseShowRoundTrip(hi, "");
    assert Show(lo) + "" == Show(lo) && Show(hi) + "" == Show(hi);
  }

  /** A capacity typed as the decimal text of `n` is stored as `n`, zero included. */
  lemma MaxParticipantsOfShown(n: int)
    ensures MaxParticipantsOf(Show(n)) == Some(Num(n))
  {
    ParseShowRoundTrip(n, "");
    assert Show(n) + "" == Show(n);
  }

  /** The start values "2" and "5" give the range 2..5; a maximum typed as "0" gives 10. */
  lemma AgeRangeDefaults()
    ensures AgeRangeOf("2", "5") == AgeRange(2, 5)
    ensures AgeRangeOf("2", "0").max == 10
  {
  }

  /** Nothing orders the bounds: a minimum above the maximum is stored as typed. */
  lemma AgeRangeNotOrdered()
    ensures AgeRangeOf("9", "3") == AgeRange(9, 3)
  {
  }

  /** The snapshot of the organizer copied into the playdate. */
  function OrganizerSnapshot(user: AuthUser, now: Time): (u: User)
    ensures u.id == user.uid && u.children == []
    ensures u.name == (if Filled(user.displayName) then user.displayName.value else "Käyttäjä")
    ensures u.email == (if Filled(user.email) then user.email.value else "")
  {
    User(user.uid, OrElse(user.email, ""), OrElse(user.displayName, "Käyttäjä"), None, [], now, now)
  }

  /**
   * The record handed to `playdates.create`. Its `id` and timestamps are
   * placeholders that the store overwrites.
   */
  function BuildPlaydate(form: Form, user: AuthUser, now: Time): (p: Playdate)
    ensures p.organizerId == user.uid && p.organizer.id == user.uid
    ensures p.participants == []
    ensures p.organizer == OrganizerSnapshot(user, now)
    ensures p.location == Location(form.locationName, form.locationAddress, form.marker)
    ensures p.ageRange == AgeRangeOf(form.minAge, form.maxAge)
    ensures p.maxParticipants == MaxParticipantsOf(form.maxParticipants)
    ensures p.title == form.title && p.description == form.description && p.date == form.date
    ensures p.startTime == form.startTime && p.endTime == form.endTime
  {
    Playdate("", form.title, form.description, user.uid, OrganizerSnapshot(user, now),
             Location(form.locationName, form.locationAddress, form.marker),
             form.date, form.startTime, form.endTime, [],
             MaxParticipantsOf(form.maxParticipants),
             AgeRangeOf(form.minAge, form.maxAge), now, now)
  }

  /**
   * `handleCreatePlaydate`, through the confirmed "OK": checks the required
   * fields, then the user, then creates the playdate and resets the form.
   * On failure neither the store nor the form changes.
   */
  method HandleCreatePlaydate(form: Form, user: Option<AuthUser>, store: PlaydateStore, now: Time)
    returns (store': PlaydateStore, result: Result<string, CreateError>, form': Form)
    ensures result == Failure(MissingFields) <==>
              form.title == "" || form.locationName == "" || form.locationAddress == ""
    ensures result == Failure(NotSignedIn) <==>
              form.title != "" && form.locationName != "" && form.locationAddress != "" && user.None?
    ensures result.Failure? ==> store' == store && form' == form
    ensures result.Success? ==>
              var id := result.value;
              && user.Some?
              && id !in store
              && store' == store[id := BuildPlaydate(form, user.value, now).(id := id, createdAt := now, updatedAt := now)]
              && store'[id].organizerId == user.value.uid
              && store'[id].participants == []
              && form' == InitialForm(now).(marker := form.marker)
  {
    if form.title == "" || form.locationName == "" || form.locationAddress == "" {
      return store, Failure(MissingFields), form;
    }
    if user.None? {
      return store, Failure(NotSignedIn), form;
    }
    var id;
    store', id := CreatePlaydate(store, BuildPlaydate(form, user.value, now), now);
    result := Success(id);
    form' := Reset(form, now);
  }
}
