/** The rows of the `users` table and the records that jobs and requests carry. */
module Users {
  import opened Wrappers

  /** The columns of one stored row; the row's `id` is its key in the store. SQL NULL is `None`. */
  datatype User = User(name: Option<string>, email: Option<string>, age: Option<int>)

  /** One element of `job.data.users`, or a request body: each property may be absent. */
  datatype UserInput = UserInput(id: Option<int>, name: Option<string>, email: Option<string>, age: Option<int>)

  /** SQL `COALESCE(supplied, stored)`. */
  function Coalesce<T>(supplied: Option<T>, stored: Option<T>): Option<T>
  {
    if supplied.Some? then supplied else stored
  }

  /** The row that `INSERT INTO users (name, email, age)` creates from a record. */
  function NewRow(input: UserInput): User
  {
    User(input.name, input.email, input.age)
  }

  /** The rows that inserting `inputs` in order creates. */
  function NewRows(inputs: seq<UserInput>): (rows: seq<User>)
    ensures |rows| == |inputs|
    ensures forall j :: 0 <= j < |inputs| ==> rows[j] == NewRow(inputs[j])
  {
    seq(|inputs|, j requires 0 <= j < |inputs| => NewRow(inputs[j]))
  }

  lemma {:induction false} NewRowsAppend(a: seq<UserInput>, b: seq<UserInput>)
    ensures NewRows(a) + NewRows(b) == NewRows(a + b)
  {
    assert forall j :: 0 <= j < |a| + |b| ==> (a + b)[j] == if j < |a| then a[j] else b[j - |a|];
  }

  /**
   * `SET name = COALESCE(c.name, u.name), email = COALESCE(c.email, u.email), age = COALESCE(c.age, u.age)`:
   * a supplied value replaces the stored one, an absent one keeps it. The record's id is not a column here.
   */
  function Merge(stored: User, input: UserInput): (r: User)
    ensures input.name.Some? ==> r.name == input.name
    ensures input.name.None? ==> r.name == stored.name
    ensures input.email.Some? ==> r.email == input.email
    ensures input.email.None? ==> r.email == stored.email
    ensures input.age.Some? ==> r.age == input.age
    ensures input.age.None? ==> r.age == stored.age
  {
    User(Coalesce(input.name, stored.name), Coalesce(input.email, stored.email), Coalesce(input.age, stored.age))
  }

  /** Applying the same partial record twice is the same as applying it once. */
  lemma {:induction false} MergeIdempotent(stored: User, input: UserInput)
    ensures Merge(Merge(stored, input), input) == Merge(stored, input)
  {
  }

  /** A record that supplies no column: merging it changes nothing. */
  const NoColumns: UserInput := UserInput(None, None, None, None)

  /** The columns `later` supplies, over those `earlier` supplies: what merging both in turn writes. */
  function Overlay(earlier: UserInput, later: UserInput): UserInput
  {
    UserInput(later.id, Coalesce(later.name, earlier.name), Coalesce(later.email, earlier.email), Coalesce(later.age, earlier.age))
  }

  /** Merging `a` and then `b` is merging once with `b`'s columns laid over `a`'s: the later value wins. */
  lemma {:induction false} MergeOverlay(stored: User, a: UserInput, b: UserInput)
    ensures Merge(Merge(stored, a), b) == Merge(stored, Overlay(a, b))
    ensures Merge(stored, NoColumns) == stored
  {
  }

  /** A record that supplies only `age` changes only `age`. */
  lemma {:induction false} MergeAgeOnly(stored: User, id: Option<int>, age: int)
    ensures Merge(stored, UserInput(id, None, None, Some(age))) == User(stored.name, stored.email, Some(age))
  {
  }

  /** Merge cannot clear a column: a stored value survives every merge that does not replace it with a value. */
  lemma {:induction false} MergeNeverClears(stored: User, input: UserInput)
    ensures stored.name.Some? ==> Merge(stored, input).name.Some?
    ensures stored.email.Some? ==> Merge(stored, input).email.Some?
    ensures stored.age.Some? ==> Merge(stored, input).age.Some?
  {
  }
}
