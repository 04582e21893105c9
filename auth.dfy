/**
 * The authentication context: the signed-in identity, mirrored into a single
 * storage slot, the start-up load, logout and the role test used by the gate.
 */
module Auth {
  import opened Wrappers
  import opened Roles

  /** The storage key the identity is kept under. */
  const StorageKey: string := "app_user"

  /** A signed-in user. The role is free text; an empty role counts as none. */
  datatype Identity = Identity(id: string, name: string, email: string, role: Option<string>)

  /**
   * What a storage slot holds: the serialisation of a value (null included),
   * the empty string, or text that does not parse as JSON.
   */
  datatype Stored = Serialized(user: Option<Identity>) | EmptyText | Unparsable

  /** The argument of `hasRole`: one role, or a list of roles. */
  datatype Allowed = One(role: string) | Many(roles: seq<string>)

  /** `user?.role` read as a truthy role. */
  predicate HasTruthyRole(user: Option<Identity>) {
    user.Some? && user.value.role.Some? && user.value.role.value != ""
  }

  /** A single allowed role is read as a one-element list. */
  function AllowedList(a: Allowed): (list: seq<string>)
    ensures a.One? ==> list == [a.role]
    ensures a.Many? ==> list == a.roles
  {
    match a
    case One(r) => [r]
    case Many(rs) => rs
  }

  /** `hasRole(allowed)` against the current user. */
  predicate HasRole(user: Option<Identity>, allowed: Allowed) {
    if !HasTruthyRole(user) then false
    else user.value.role.value in AllowedList(allowed)
  }

  lemma HasRoleNeedsRole(user: Option<Identity>, allowed: Allowed)
    requires !HasTruthyRole(user)
    ensures !HasRole(user, allowed)
  {
  }

  lemma HasRoleScalarIsList(user: Option<Identity>, r: string)
    ensures HasRole(user, One(r)) == HasRole(user, Many([r]))
  {
  }

  /** With a role set, the test is list membership in both directions. */
  lemma HasRoleIffMember(user: Option<Identity>, roles: seq<string>)
    requires HasTruthyRole(user)
    ensures HasRole(user, Many(roles)) <==> exists i :: 0 <= i < |roles| && roles[i] == user.value.role.value
  {
    if HasRole(user, Many(roles)) {
      var i :| 0 <= i < |roles| && roles[i] == user.value.role.value;
    }
  }

  /** A role outside the registry never passes a list drawn from the registry. */
  lemma UnknownRoleRejected(user: Option<Identity>, roles: seq<Role>)
    requires HasTruthyRole(user) && FromId(user.value.role.value).None?
    ensures !HasRole(user, Many(seq(|roles|, i requires 0 <= i < |roles| => Id(roles[i]))))
  {
  }

  /** The user the start-up load ends with, given the slot's content. */
  function LoadedUser(slot: Option<Stored>, current: Option<Identity>): (u: Option<Identity>)
    ensures slot.Some? && slot.value.Serialized? ==> u == slot.value.user
    ensures slot.None? || !slot.value.Serialized? ==> u == current
  {
    match slot
    case Some(Serialized(v)) => v
    case _ => current
  }

  /** A persisted identity is what the next start-up loads. */
  lemma PersistThenLoad(storage: map<string, Stored>, data: Identity)
    ensures LoadedUser(Lookup(storage[StorageKey := Serialized(Some(data))], StorageKey), None) == Some(data)
  {
  }

  /** After logout the next start-up loads nobody. */
  lemma LogoutThenLoad(storage: map<string, Stored>)
    ensures LoadedUser(Lookup(storage - {StorageKey}, StorageKey), None) == None
  {
  }

  /** The session state: `user`, `loading` and the storage slots. */
  class Session {
    var user: Option<Identity>
    var loading: bool
    var storage: map<string, Stored>

    constructor (storage0: map<string, Stored>)
      ensures user == None && loading && storage == storage0
    {
      user := None;
      loading := true;
      storage := storage0;
    }

    /** `isAuthenticated`: a user is present. */
    predicate IsAuthenticated()
      reads this
    {
      user.Some?
    }

    /** `role`: `user?.role ?? null`; an empty role stays an empty string. */
    function CurrentRole(): (r: Option<string>)
      reads this
      ensures r.Some? ==> user.Some? && user.value.role == r
      ensures r.None? ==> user.None? || user.value.role.None?
    {
      if user.Some? then user.value.role else None
    }

    /** The start-up effect: read the slot if it holds text, then stop loading. */
    method Load()
      modifies this
      ensures user == LoadedUser(Lookup(old(storage), StorageKey), old(user))
      ensures !loading && storage == old(storage)
    {
      if StorageKey in storage {
        var saved := storage[StorageKey];
        match saved
        case Serialized(v) => user := v;
        case EmptyText =>
        case Unparsable =>
      }
      loading := false;
    }

    /** `setUser`: keep the identity and write its serialisation to the slot. */
    method SetUser(data: Identity)
      modifies this
      ensures user == Some(data) && IsAuthenticated()
      ensures storage == old(storage)[StorageKey := Serialized(Some(data))]
      ensures loading == old(loading)
    {
      user := Some(data);
      storage := storage[StorageKey := Serialized(Some(data))];
    }

    /** `logout`: forget the identity and remove the slot. */
    method Logout()
      modifies this
      ensures user == None && !IsAuthenticated() && CurrentRole() == None
      ensures storage == old(storage) - {StorageKey} && StorageKey !in storage
      ensures loading == old(loading)
    {
      user := None;
      storage := storage - {StorageKey};
    }
  }
}
