/**
 * Users, their addresses, messages and notifications (users/models.py).
 * A table of addresses is a map from primary key to row; instants are
 * integers and "now" is a parameter.
 */
module Users {
  import opened Wrappers
  import Text

  type UserId = string

  // ---------------------------------------------------------------------
  // Users

  /** `USER_TYPES`; any other stored string is `OtherUserType`. */
  datatype UserType = Customer | Admin | OtherUserType(name: string)

  datatype User = User(id: UserId, email: string, username: string, firstName: string, lastName: string, userType: UserType)

  /** `get_full_name`: "first last" stripped, or the username when that leaves nothing. */
  function FullName(u: User): (r: string)
  {
    var joined := Text.Strip(u.firstName + " " + u.lastName);
    if joined != "" then joined else u.username
  }

  /**
   * The username is used exactly when both names are blank; otherwise the
   * full name has no surrounding whitespace.
   */
  lemma FullNameProperties(u: User)
    ensures Text.AllSpace(u.firstName + " " + u.lastName) ==> FullName(u) == u.username
    ensures !Text.AllSpace(u.firstName + " " + u.lastName) ==>
      FullName(u) != "" && !Text.IsSpace(FullName(u)[0]) && !Text.IsSpace(FullName(u)[|FullName(u)| - 1])
  {
    Text.StripProperties(u.firstName + " " + u.lastName);
  }

  /** Two single-word names come back from the full name as exactly those two words. */
  lemma FullNameWords(u: User)
    requires u.firstName != "" && Text.NoSpace(u.firstName)
    requires u.lastName != "" && Text.NoSpace(u.lastName)
    ensures Text.Words(FullName(u)) == [u.firstName, u.lastName]
  {
    var s := u.firstName + " " + u.lastName;
    var ws := [u.firstName, u.lastName];
    assert Text.Join(ws, " ") == s by {
      assert ws[1..] == [u.lastName];
    }
    Text.WordsOfJoin(ws);
    assert Text.StripLeft(s) == s by {
      assert !Text.IsSpace(s[0]);
    }
    assert Text.StripRight(s) == s by {
      assert !Text.IsSpace(s[|s| - 1]);
    }
  }

  /** `is_admin_user`. */
  predicate IsAdminUser(u: User) {
    u.userType == Admin
  }

  // ---------------------------------------------------------------------
  // Addresses

  type AddressId = string

  datatype AddressType = Billing | Shipping

  datatype Address = Address(
    id: AddressId,
    userId: UserId,
    addressType: AddressType,
    firstName: string,
    lastName: string,
    line1: string,
    line2: string,
    city: string,
    county: string,
    postcode: string,
    country: string,
    isDefault: bool
  )

  /** The parts of an address, in printing order. */
  function Parts(a: Address): seq<string> {
    [a.line1, a.line2, a.city, a.county, a.postcode, a.country]
  }

  /** `get_full_address`: the non-empty parts joined with ", ". */
  function FullAddress(a: Address): (r: string)
  {
    Text.Join(Text.NonEmpty(Parts(a)), ", ")
  }

  /** A full address with no empty part joins all six parts, in order, with ", ". */
  lemma FullAddressAllParts(a: Address)
    requires a.line1 != "" && a.line2 != "" && a.city != "" && a.county != "" && a.postcode != "" && a.country != ""
    ensures FullAddress(a) == Text.Join([a.line1, a.line2, a.city, a.county, a.postcode, a.country], ", ")
  {
    Text.NonEmptyKeepsAll(Parts(a));
  }

  /** An address whose parts are all empty prints as the empty string. */
  lemma FullAddressBlank(a: Address)
    requires Parts(a) == ["", "", "", "", "", ""]
    ensures FullAddress(a) == ""
  {
    Text.NonEmptyOfBlanks(Parts(a));
  }

  /** An empty second line contributes nothing, not even a separator. */
  lemma FullAddressNoLine2(a: Address)
    requires a.line2 == ""
    ensures FullAddress(a) == Text.Join(Text.NonEmpty([a.line1, a.city, a.county, a.postcode, a.country]), ", ")
  {
    Text.JoinSkipsEmpty([a.line1], [a.city, a.county, a.postcode, a.country], ", ");
    assert Parts(a) == [a.line1] + [""] + [a.city, a.county, a.postcode, a.country];
    assert [a.line1] + [a.city, a.county, a.postcode, a.country] == [a.line1, a.city, a.county, a.postcode, a.country];
  }

  /** Every row is stored under its own primary key. */
  ghost predicate KeyedById(rows: map<AddressId, Address>) {
    forall k :: k in rows ==> rows[k].id == k
  }

  predicate SameOwner(a: Address, b: Address) {
    a.userId == b.userId && a.addressType == b.addressType
  }

  /** At most one default address per user and address type. */
  ghost predicate OneDefault(rows: map<AddressId, Address>) {
    forall k1, k2 ::
      (k1 in rows && k2 in rows && rows[k1].isDefault && rows[k2].isDefault && SameOwner(rows[k1], rows[k2])) ==> k1 == k2
  }

  /** `filter(user, address_type, is_default=True).exclude(pk=a.pk).update(is_default=False)`. */
  function ClearOtherDefaults(rows: map<AddressId, Address>, a: Address): (r: map<AddressId, Address>)
    ensures r.Keys == rows.Keys
  {
    map k | k in rows :: if k != a.id && rows[k].isDefault && SameOwner(rows[k], a) then rows[k].(isDefault := false) else rows[k]
  }

  /** The table after `Address.save` as its comment intends: other defaults cleared first when saving a default. */
  function Saved(rows: map<AddressId, Address>, a: Address): (r: map<AddressId, Address>)
  {
    (if a.isDefault then ClearOtherDefaults(rows, a) else rows)[a.id := a]
  }

  /** Saving stores the row under its key and keeps every other key. */
  lemma SavedKeys(rows: map<AddressId, Address>, a: Address)
    ensures Saved(rows, a).Keys == rows.Keys + {a.id}
    ensures Saved(rows, a)[a.id] == a
  {
  }

  /** A saved default is the only default for its user and type. */
  lemma SavedOnlyDefault(rows: map<AddressId, Address>, a: Address)
    requires a.isDefault
    ensures forall k :: k in Saved(rows, a) && Saved(rows, a)[k].isDefault && SameOwner(Saved(rows, a)[k], a) ==> k == a.id
  {
  }

  /**
   * Rows of other users or types are untouched, and rows of the same owner
   * lose at most their default flag.
   */
  lemma SavedOthers(rows: map<AddressId, Address>, a: Address)
    ensures forall k :: k in rows && k != a.id && !SameOwner(rows[k], a) ==> Saved(rows, a)[k] == rows[k]
    ensures forall k :: k in rows && k != a.id ==> Saved(rows, a)[k] == rows[k].(isDefault := Saved(rows, a)[k].isDefault)
  {
  }

  /** Saving keeps every row under its own key and at most one default per user and type. */
  lemma SavedKeepsInvariants(rows: map<AddressId, Address>, a: Address)
    requires KeyedById(rows) && OneDefault(rows)
    ensures KeyedById(Saved(rows, a)) && OneDefault(Saved(rows, a))
  {
  }

  /** The address table, saved one row at a time. */
  class AddressBook {
    var rows: map<AddressId, Address>

    ghost predicate Valid()
      reads this
    {
      KeyedById(rows) && OneDefault(rows)
    }

    constructor ()
      ensures Valid() && rows == map[]
    {
      rows := map[];
    }

    /** `Address.save`, with the one-default invariant kept. */
    method Save(a: Address)
      requires Valid()
      modifies this
      ensures Valid()
      ensures rows == Saved(old(rows), a)
      ensures a.isDefault ==> forall k :: k in rows && rows[k].isDefault && SameOwner(rows[k], a) ==> k == a.id
    {
      SavedKeepsInvariants(rows, a);
      if a.isDefault {
        SavedOnlyDefault(rows, a);
        rows := ClearOtherDefaults(rows, a);
      }
      rows := rows[a.id := a];
    }
  }

  /** `unique_together = ('user', 'address_type', 'is_default')`: no two rows agree on all three. */
  ghost predicate UniqueTogether(rows: map<AddressId, Address>) {
    forall k1, k2 ::
      (k1 in rows && k2 in rows && rows[k1].isDefault == rows[k2].isDefault && SameOwner(rows[k1], rows[k2])) ==> k1 == k2
  }

  predicate Clashes(rows: map<AddressId, Address>, a: Address) {
    exists k :: k in rows && k != a.id && rows[k].isDefault == a.isDefault && SameOwner(rows[k], a)
  }

  /**
   * `Address.save` as written, against a table that enforces the
   * `unique_together` of its Meta: the update that clears the old default,
   * then the write of the row itself, each fail with `IntegrityError` when
   * they make two rows agree on user, type and default flag.
   */
  function SaveAsWritten(rows: map<AddressId, Address>, a: Address): (r: Result<map<AddressId, Address>>)
    ensures r.Ok? ==> r.value == Saved(rows, a)
  {
    var cleared := if a.isDefault then ClearOtherDefaults(rows, a) else rows;
    if exists k :: k in rows && k in cleared && rows[k] != cleared[k] && Clashes(cleared, cleared[k]) then Err("IntegrityError")
    else if Clashes(cleared, a) then Err("IntegrityError")
    else Ok(cleared[a.id := a])
  }

  /** The address of the examples below, a default billing address. */
  function Home(): (r: Address)
    ensures r.isDefault && r.id == "a1"
  {
    Address("a1", "u1", Billing, "Ann", "Lee", "1 High St", "", "Bath", "", "BA1 1AA", "United Kingdom", true)
  }

  /** A second billing address of the same user, under its own key. */
  function Work(): (r: Address)
    ensures r.id == "a2" && SameOwner(r, Home())
  {
    Home().(id := "a2", line1 := "2 Low St")
  }

  /**
   * The constraint forbids a second non-default address of the same type:
   * saving one fails although no default is involved at all.
   */
  lemma SaveAsWrittenRejectsNonDefault()
    ensures SaveAsWritten(map["a2" := Work().(isDefault := false)], Home().(isDefault := false)).Err?
  {
    var rows := map["a2" := Work().(isDefault := false)];
    assert Clashes(rows, Home().(isDefault := false)) by {
      assert "a2" in rows;
    }
  }

  /** A default and a non-default billing address of the same user. */
  function TwoAddresses(): (r: map<AddressId, Address>)
    ensures KeyedById(r) && OneDefault(r)
  {
    map["a1" := Home(), "a2" := Work().(isDefault := false)]
  }

  /**
   * Promoting a non-default address to default while another default
   * exists fails too: clearing the old default makes it clash with the
   * promoted row's old non-default state, although the table would keep
   * one default per user and type.
   */
  lemma SaveAsWrittenRejectsPromotion()
    ensures SaveAsWritten(TwoAddresses(), Work()).Err?
    ensures OneDefault(Saved(TwoAddresses(), Work()))
  {
    var rows := TwoAddresses();
    SavedKeepsInvariants(rows, Work());
    var cleared := ClearOtherDefaults(rows, Work());
    assert cleared["a1"] == Home().(isDefault := false);
    assert Clashes(cleared, cleared["a1"]) by {
      assert "a2" in cleared && "a1" != "a2";
    }
  }

  // ---------------------------------------------------------------------
  // Messages and notifications

  datatype MessageStatus = Unread | Read | Archived

  /** The `UserActivity` row `mark_as_read` logs. */
  datatype Activity = Activity(userId: UserId, activityType: string, objectId: string, messageType: string, subject: string)

  class Message {
    const id: string
    const messageType: string
    const subject: string
    const recipient: Option<UserId>
    var status: MessageStatus
    var readAt: Option<int>

    constructor (id0: string, messageType0: string, subject0: string, recipient0: Option<UserId>)
      ensures id == id0 && messageType == messageType0 && subject == subject0 && recipient == recipient0
      ensures status == Unread && readAt == None
    {
      id, messageType, subject, recipient := id0, messageType0, subject0, recipient0;
      status, readAt := Unread, None;
    }

    /**
     * `mark_as_read`: only an unread message changes, to read at `now`;
     * then, when it has a recipient, a `message_read` activity is logged
     * for them. Read and archived messages are left as they are.
     */
    method MarkAsRead(now: int) returns (logged: Option<Activity>)
      modifies this
      ensures old(status) == Unread ==> status == Read && readAt == Some(now)
      ensures old(status) != Unread ==> status == old(status) && readAt == old(readAt) && logged == None
      ensures logged.Some? <==> old(status) == Unread && recipient.Some?
      ensures logged.Some? ==>
        logged.value == Activity(recipient.value, "message_read", id, messageType, subject)
    {
      logged := None;
      if status == Unread {
        status := Read;
        readAt := Some(now);
        if recipient.Some? {
          logged := Some(Activity(recipient.value, "message_read", id, messageType, subject));
        }
      }
    }

    /** `archive`: from any status; the read time is kept. */
    method Archive()
      modifies this
      ensures status == Archived && readAt == old(readAt)
    {
      status := Archived;
    }
  }

  class Notification {
    var isRead: bool
    var readAt: Option<int>

    constructor ()
      ensures !isRead && readAt == None
    {
      isRead, readAt := false, None;
    }

    /** `mark_as_read`: the first call records the time; later calls change nothing. */
    method MarkAsRead(now: int)
      modifies this
      ensures isRead
      ensures old(isRead) ==> readAt == old(readAt)
      ensures !old(isRead) ==> readAt == Some(now)
    {
      if !isRead {
        isRead := true;
        readAt := Some(now);
      }
    }
  }
}
