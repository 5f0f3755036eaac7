/**
 * The records of the playdate application: users, their children,
 * playdates and the participants who joined them.
 *
 * Instants are plain integers (milliseconds of some epoch); coordinates are
 * carried along but never computed with.
 */
module Domain {
  import opened Wrappers

  /** An instant in time. */
  type Time = int

  /** A map position; only copied, never inspected. */
  datatype Coordinates = Coordinates(latitude: real, longitude: real)

  datatype Location = Location(name: string, address: string, coordinates: Coordinates)

  /**
   * A calendar date split into its year and the position within that year
   * (month, day and time of day folded into one number), so that "the same
   * day, n years earlier" can be stated.
   */
  datatype CalendarDate = CalendarDate(year: int, withinYear: int)

  datatype Child = Child(name: string, age: int, dateOfBirth: CalendarDate)

  datatype User = User(
    id: string,
    email: string,
    name: string,
    phoneNumber: Option<string>,
    children: seq<Child>,
    createdAt: Time,
    updatedAt: Time)

  /**
   * One join record. `user` is the snapshot of the joining user; `None` is
   * the empty object the service writes, to be filled in by the UI.
   */
  datatype Participant = Participant(
    userId: string,
    user: Option<User>,
    childrenCount: int,
    joinedAt: Time)

  datatype AgeRange = AgeRange(min: int, max: int)

  /** A number as JavaScript's `parseInt` yields it: an integer or NaN. */
  datatype Parsed = Num(n: int) | NaN

  datatype Playdate = Playdate(
    id: string,
    title: string,
    description: string,
    organizerId: string,
    organizer: User,
    location: Location,
    date: Time,
    startTime: string,
    endTime: string,
    participants: seq<Participant>,
    maxParticipants: Option<Parsed>,
    ageRange: AgeRange,
    createdAt: Time,
    updatedAt: Time)

  /** The signed-in account as the identity provider reports it. */
  datatype AuthUser = AuthUser(uid: string, email: Option<string>, displayName: Option<string>)

  /** A pop-up message: a title and a body. */
  datatype Alert = Alert(title: string, message: string)

  /** JavaScript truthiness of a string that may be missing: present and non-empty. */
  predicate Filled(s: Option<string>) {
    s.Some? && s.value != ""
  }

  /** `s || fallback` for a string that may be missing. */
  function OrElse(s: Option<string>, fallback: string): (r: string)
    ensures Filled(s) ==> r == s.value
    ensures !Filled(s) ==> r == fallback
  {
    if Filled(s) then s.value else fallback
  }

  /**
   * `s.length` in JavaScript: the number of UTF-16 code units, so a character
   * outside the Basic Multilingual Plane counts twice.
   */
  function Utf16Length(s: string): (n: nat)
    ensures |s| <= n <= 2 * |s|
  {
    if |s| == 0 then 0 else (if s[0] as int > 0xFFFF then 2 else 1) + Utf16Length(s[1..])
  }

  /** For text inside the Basic Multilingual Plane the code-unit count is the character count. */
  lemma {:induction false} Utf16LengthOfBmp(s: string)
    requires forall i :: 0 <= i < |s| ==> s[i] as int <= 0xFFFF
    ensures Utf16Length(s) == |s|
  {
    if |s| > 0 {
      Utf16LengthOfBmp(s[1..]);
    }
  }
}
