/** The user table and its service: e-mail normalisation, creation and the
    two lookups. The table is held in memory; `email` is the table's unique
    key (the service looks users up by it with a unique-key lookup), so a
    second row with the same address is refused as the database would. */
module Users {
  import opened Wrappers
  import opened Strings

  /** What the database's unique-key check reports for a duplicate e-mail. */
  const EMAIL_NOT_UNIQUE: string := "Unique constraint failed on the fields: (`email`)"

  /** A row of the user table; `timezone` is nullable there. */
  datatype UserRecord = UserRecord(
    id: nat, email: string, passwordHash: string, displayName: string,
    timezone: Option<string>, createdAt: int, updatedAt: int)

  /** The domain user; `timezone` is optional. */
  datatype User = User(
    id: nat, email: string, passwordHash: string, displayName: string,
    timezone: Option<string>, createdAt: int, updatedAt: int)

  datatype CreateUserInput = CreateUserInput(
    email: string, passwordHash: string, displayName: string, timezone: Option<string>)

  // ------------------------------------------------------- normalisation

  /** `email.trim().toLowerCase()`: no upper-case ASCII letter, no longer
      than `email`, and empty exactly when `email` is all white space (that
      it has no white space at either end is `NormalizeIdempotent`). */
  function NormalizeEmail(email: string): (r: string)
    ensures |r| <= |email|
    ensures forall i :: 0 <= i < |r| ==> !('A' <= r[i] <= 'Z')
    ensures r == [] <==> AllSpace(email)
  {
    Lower(Trim(email))
  }

  predicate Normalized(email: string) {
    NormalizeEmail(email) == email
  }

  /** Lower-casing never turns a character into white space or back. */
  lemma LowerKeepsSpace(c: char)
    ensures IsSpace(LowerChar(c)) == IsSpace(c)
  {
  }

  lemma {:induction false} LeadingOfLower(s: string)
    ensures Leading(Lower(s)) == Leading(s)
  {
    if s != [] {
      LowerKeepsSpace(s[0]);
      assert Lower(s)[1..] == Lower(s[1..]);
      LeadingOfLower(s[1..]);
    }
  }

  lemma {:induction false} TrailingOfLower(s: string)
    ensures Trailing(Lower(s)) == Trailing(s)
  {
    if s != [] {
      LowerKeepsSpace(s[|s| - 1]);
      assert Lower(s)[..|s| - 1] == Lower(s[..|s| - 1]);
      TrailingOfLower(s[..|s| - 1]);
    }
  }

  /** Trimming and lower-casing commute. */
  lemma TrimLowerCommute(s: string)
    ensures Trim(Lower(s)) == Lower(Trim(s))
  {
    var k := Leading(s);
    LeadingOfLower(s);
    LowerDrop(s, k);
    TrimEndOfLower(s[k..]);
  }

  lemma LowerDrop(s: string, k: nat)
    requires k <= |s|
    ensures Lower(s)[k..] == Lower(s[k..])
  {
  }

  lemma TrimEndOfLower(t: string)
    ensures TrimEnd(Lower(t)) == Lower(TrimEnd(t))
  {
    TrailingOfLower(t);
    LowerTake(t, |t| - Trailing(t));
  }

  lemma LowerTake(s: string, k: nat)
    requires k <= |s|
    ensures Lower(s)[..k] == Lower(s[..k])
  {
  }

  /** Normalising twice is normalising once. */
  lemma NormalizeIdempotent(email: string)
    ensures Normalized(NormalizeEmail(email))
    ensures Trim(NormalizeEmail(email)) == NormalizeEmail(email)
  {
    var t := Trim(email);
    TrimIdempotent(email);
    TrimLowerCommute(t);
    LowerIdempotent(t);
  }

  /** Spellings that differ only in ASCII letter case normalise to the
      same address. */
  lemma NormalizeIgnoresCase(email: string)
    ensures NormalizeEmail(Lower(email)) == NormalizeEmail(email)
  {
    TrimLowerCommute(email);
    LowerIdempotent(Trim(email));
  }

  // -------------------------------------------------------------- rows

  /** `toDomainUser`: every column copied, a null timezone read as absent. */
  function ToDomainUser(record: UserRecord): (r: User)
    ensures r.id == record.id && r.email == record.email
    ensures r.passwordHash == record.passwordHash && r.displayName == record.displayName
    ensures r.timezone == record.timezone
    ensures r.createdAt == record.createdAt && r.updatedAt == record.updatedAt
  {
    User(record.id, record.email, record.passwordHash, record.displayName,
         record.timezone, record.createdAt, record.updatedAt)
  }

  /** The first row whose e-mail is exactly `email`. */
  function IndexOfEmail(records: seq<UserRecord>, email: string): (r: Option<nat>)
    ensures r.Some? ==> r.value < |records| && records[r.value].email == email
    ensures r.None? <==> forall i :: 0 <= i < |records| ==> records[i].email != email
  {
    if records == [] then None
    else if records[|records| - 1].email == email then
      var earlier := IndexOfEmail(records[..|records| - 1], email);
      if earlier.Some? then earlier else Some(|records| - 1)
    else IndexOfEmail(records[..|records| - 1], email)
  }

  /** The first row whose id is `id`. */
  function IndexOfId(records: seq<UserRecord>, id: nat): (r: Option<nat>)
    ensures r.Some? ==> r.value < |records| && records[r.value].id == id
    ensures r.None? <==> forall i :: 0 <= i < |records| ==> records[i].id != id
  {
    if records == [] then None
    else if records[|records| - 1].id == id then
      var earlier := IndexOfId(records[..|records| - 1], id);
      if earlier.Some? then earlier else Some(|records| - 1)
    else IndexOfId(records[..|records| - 1], id)
  }

  /** The table's invariant: ids below the counter and distinct, e-mails
      distinct and stored in normal form. */
  predicate WellFormed(records: seq<UserRecord>, nextId: nat) {
    IdsBelow(records, nextId) && EmailsNormalized(records) && KeysDistinct(records)
  }

  predicate IdsBelow(records: seq<UserRecord>, nextId: nat) {
    forall i :: 0 <= i < |records| ==> records[i].id < nextId
  }

  predicate EmailsNormalized(records: seq<UserRecord>) {
    forall i :: 0 <= i < |records| ==> Normalized(records[i].email)
  }

  predicate KeysDistinct(records: seq<UserRecord>) {
    forall i, j :: 0 <= i < j < |records| ==>
      records[i].id != records[j].id && records[i].email != records[j].email
  }

  /** The row `createUser` inserts. */
  function NewRecord(id: nat, input: CreateUserInput, now: int): (r: UserRecord)
    ensures r.email == NormalizeEmail(input.email) && r.passwordHash == input.passwordHash
    ensures r.id == id && r.createdAt == now && r.updatedAt == now
  {
    UserRecord(id, NormalizeEmail(input.email), input.passwordHash, input.displayName,
               input.timezone, now, now)
  }

  /** Appending a row with a fresh id and a fresh normalised e-mail keeps
      the table well formed. */
  lemma WellFormedAfterInsert(records: seq<UserRecord>, nextId: nat, input: CreateUserInput, now: int)
    requires WellFormed(records, nextId)
    requires IndexOfEmail(records, NormalizeEmail(input.email)).None?
    ensures WellFormed(records + [NewRecord(nextId, input, now)], nextId + 1)
  {
    var rec := NewRecord(nextId, input, now);
    NormalizeIdempotent(input.email);
    AppendKeepsKeys(records, nextId, rec);
    AppendKeepsNormalized(records, rec);
  }

  lemma AppendKeepsKeys(records: seq<UserRecord>, nextId: nat, rec: UserRecord)
    requires IdsBelow(records, nextId) && KeysDistinct(records)
    requires rec.id == nextId
    requires forall i :: 0 <= i < |records| ==> records[i].email != rec.email
    ensures IdsBelow(records + [rec], nextId + 1) && KeysDistinct(records + [rec])
  {
    var all := records + [rec];
    forall i, j | 0 <= i < j < |all|
      ensures all[i].id != all[j].id && all[i].email != all[j].email
    {
      assert all[i] == records[i];
      if j < |records| {
        assert all[j] == records[j];
      }
    }
  }

  lemma AppendKeepsNormalized(records: seq<UserRecord>, rec: UserRecord)
    requires EmailsNormalized(records) && Normalized(rec.email)
    ensures EmailsNormalized(records + [rec])
  {
    var all := records + [rec];
    forall i | 0 <= i < |all|
      ensures Normalized(all[i].email)
    {
      if i < |records| {
        assert all[i] == records[i];
      }
    }
  }

  class UsersService {
    var records: seq<UserRecord>
    var nextId: nat

    ghost predicate Valid()
      reads this
    {
      WellFormed(records, nextId)
    }

    constructor()
      ensures Valid() && records == []
    {
      records := [];
      nextId := 0;
    }

    /** `createUser`: stores the normalised e-mail; a second row with the
        same normalised e-mail is refused and nothing changes. */
    method CreateUser(input: CreateUserInput, now: int) returns (r: Result<User, string>)
      requires Valid()
      modifies this
      ensures Valid()
      ensures IndexOfEmail(old(records), NormalizeEmail(input.email)).Some? ==>
        r == Err(EMAIL_NOT_UNIQUE) && records == old(records) && nextId == old(nextId)
      ensures IndexOfEmail(old(records), NormalizeEmail(input.email)).None? ==>
        records == old(records) + [NewRecord(old(nextId), input, now)] &&
        nextId == old(nextId) + 1 &&
        r == Ok(ToDomainUser(NewRecord(old(nextId), input, now)))
    ensures r.Ok? ==> FindByEmail(input.email) == Some(r.value)
    {
      var normalized := NormalizeEmail(input.email);
      if IndexOfEmail(records, normalized).Some? {
        r := Err(EMAIL_NOT_UNIQUE);
        return;
      }
      WellFormedAfterInsert(records, nextId, input, now);
      var record := NewRecord(nextId, input, now);
      var before := records;
      records := records + [record];
      assert records[..|records| - 1] == before;
      nextId := nextId + 1;
      r := Ok(ToDomainUser(record));
    }

    /** `findByEmail`: the lookup is by the normalised address, so any
        spelling that normalises the same finds the row. */
    function FindByEmail(email: string): (r: Option<User>)
      reads this
      ensures r.Some? <==>
        exists i :: 0 <= i < |records| && records[i].email == NormalizeEmail(email)
      ensures r.Some? ==> r.value.email == NormalizeEmail(email)
      ensures r.Some? ==>
        exists i :: 0 <= i < |records| && records[i].email == NormalizeEmail(email) &&
          r.value == ToDomainUser(records[i])
      ensures r.Some? && KeysDistinct(records) ==>
        forall i :: 0 <= i < |records| && records[i].email == NormalizeEmail(email) ==>
          r.value == ToDomainUser(records[i])
    {
      var i := IndexOfEmail(records, NormalizeEmail(email));
      if i.None? then None else Some(ToDomainUser(records[i.value]))
    }

    /** `findById`: the row with that id, if any. */
    function FindById(id: nat): (r: Option<User>)
      reads this
      ensures r.Some? <==> exists i :: 0 <= i < |records| && records[i].id == id
      ensures r.Some? ==> r.value.id == id
      ensures r.Some? ==>
        exists i :: 0 <= i < |records| && records[i].id == id && r.value == ToDomainUser(records[i])
      ensures r.Some? && KeysDistinct(records) ==>
        forall i :: 0 <= i < |records| && records[i].id == id ==> r.value == ToDomainUser(records[i])
    {
      var i := IndexOfId(records, id);
      if i.None? then None else Some(ToDomainUser(records[i.value]))
    }
  }
}
