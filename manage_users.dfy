/** The admin user list: search, edit, add and delete. The list is patched
    locally only after the awaited request succeeds. Rows are keyed, edited and
    deleted by the user's `id` field, while the table shows `_id`. */
module ManageUsers {
  import opened Optional
  import opened Http
  import opened Lists
  import opened Entities
  import opened Search

  predicate UserMatches(user: User, term: string) {
    FieldMatches(user.name, term) || FieldMatches(user.email, term)
  }

  /** `filteredUsers`: name or email contains the term, ignoring case. */
  function FilteredUsers(users: seq<User>, term: string): (r: seq<User>)
    ensures forall u :: u in r <==> u in users && UserMatches(u, term)
    ensures forall u :: multiset(r)[u] == if UserMatches(u, term) then multiset(users)[u] else 0
    ensures IsSubsequence(r, users)
  {
    Filter(users, (u: User) => UserMatches(u, term))
  }

  /** `users.map(user => user.id === edited.id ? edited : user)`. As with
      `undefined === undefined`, an edited user without `id` replaces every user
      without `id`. */
  function ReplaceUser(users: seq<User>, edited: User): (r: seq<User>)
    ensures |r| == |users|
    ensures forall i :: 0 <= i < |users| ==> r[i] == if users[i].id == edited.id then edited else users[i]
  {
    UpdateWhere(users, (u: User) => u.id == edited.id, (_: User) => edited)
  }

  /** Saving never changes the `id` column, so it cannot create or remove ids. */
  lemma ReplaceKeepsIds(users: seq<User>, edited: User)
    ensures forall i :: 0 <= i < |users| ==> ReplaceUser(users, edited)[i].id == users[i].id
  {
  }

  /** `users.filter(user => user.id !== userId)`. */
  function WithoutUser(users: seq<User>, userId: string): (r: seq<User>)
    ensures forall u :: u in r <==> u in users && u.id != Some(userId)
    ensures forall u :: multiset(r)[u] == if u.id == Some(userId) then 0 else multiset(users)[u]
    ensures IsSubsequence(r, users)
  {
    Filter(users, (u: User) => u.id != Some(userId))
  }

  datatype NewUser = NewUser(name: string, email: string, phone: string, address: string, password: string)

  const EmptyNewUser := NewUser("", "", "", "", "")

  /** The five text inputs the add and the edit modal both offer. */
  datatype UserField = NameField | EmailField | PhoneField | AddressField | PasswordField

  /** The value an add-form input shows. */
  function NewUserValue(u: NewUser, field: UserField): string {
    match field
    case NameField => u.name
    case EmailField => u.email
    case PhoneField => u.phone
    case AddressField => u.address
    case PasswordField => u.password
  }

  /** `setNewUser({ ...newUser, <field>: value })`. */
  function SetNewUserField(u: NewUser, field: UserField, value: string): (r: NewUser)
    ensures NewUserValue(r, field) == value
    ensures forall f :: f != field ==> NewUserValue(r, f) == NewUserValue(u, f)
  {
    match field
    case NameField => u.(name := value)
    case EmailField => u.(email := value)
    case PhoneField => u.(phone := value)
    case AddressField => u.(address := value)
    case PasswordField => u.(password := value)
  }

  /** The record field an edit-form input writes; `name` and `email` may be absent on a listed user. */
  function UserValue(u: User, field: UserField): Option<string> {
    match field
    case NameField => u.name
    case EmailField => u.email
    case PhoneField => Some(u.phone)
    case AddressField => Some(u.address)
    case PasswordField => Some(u.password)
  }

  /** `setCurrentUser({ ...currentUser, <field>: value })`. The inputs write `name`
      and `phone`, the record's own fields, even though the Name and Phone inputs
      display `full_name` and `phone_number`. */
  function SetUserField(u: User, field: UserField, value: string): (r: User)
    ensures UserValue(r, field) == Some(value)
    ensures forall f :: f != field ==> UserValue(r, f) == UserValue(u, f)
    ensures r.id == u.id && r.dbId == u.dbId
  {
    match field
    case NameField => u.(name := Some(value))
    case EmailField => u.(email := Some(value))
    case PhoneField => u.(phone := value)
    case AddressField => u.(address := value)
    case PasswordField => u.(password := value)
  }

  /** Typing into the edit modal never changes the `id` a save replaces by, so
      saving an edit of a listed user with an `id` puts the edited copy in its row. */
  lemma EditedSaveLandsInRow(users: seq<User>, i: nat, field: UserField, value: string)
    requires i < |users| && users[i].id.Some?
    ensures ReplaceUser(users, SetUserField(users[i], field, value))[i] == SetUserField(users[i], field, value)
  {
  }

  /** What one table row uses: its React key, the id it displays, and the id its delete button passes. */
  datatype UserRow = UserRow(key: Option<string>, shownId: Option<string>, deleteArg: Option<string>)

  function RowOf(user: User): (row: UserRow)
    ensures row.key == row.deleteArg
  {
    UserRow(user.id, user.dbId, user.id)
  }

  /** A record that carries only `_id` shows an id in its row, yet its delete
      button passes no id, so the delete is dropped by the `!userId` guard. */
  lemma ShownIdIsNotDeleteId(user: User)
    requires user.id.None? && user.dbId.Some?
    ensures RowOf(user).shownId == user.dbId
    ensures !Truthy(RowOf(user).deleteArg)
  {
  }

  /** Two distinct users without `id`: saving an edit of one overwrites both. */
  lemma SaveWithoutIdOverwritesAllIdless(a: User, b: User, edited: User)
    requires a.id.None? && b.id.None? && edited.id.None? && a != b
    ensures ReplaceUser([a, b], edited) == [edited, edited]
  {
    var r := ReplaceUser([a, b], edited);
    assert r[0] == edited && r[1] == edited;
  }

  class ManageUsersView {
    var users: seq<User>
    var searchTerm: string
    var isEditing: bool
    var isAdding: bool
    var currentUser: Option<User>
    var newUser: NewUser

    constructor ()
      ensures users == [] && searchTerm == "" && !isEditing && !isAdding
      ensures currentUser == None && newUser == EmptyNewUser
    {
      users := [];
      searchTerm := "";
      isEditing := false;
      isAdding := false;
      currentUser := None;
      newUser := EmptyNewUser;
    }

    /** The initial `GET /cred/users`: the list is replaced on success only. */
    method FetchUsers(response: Outcome<seq<User>>)
      modifies this
      ensures users == if response.Ok? then response.data else old(users)
      ensures searchTerm == old(searchTerm) && isEditing == old(isEditing) && isAdding == old(isAdding)
      ensures currentUser == old(currentUser) && newUser == old(newUser)
    {
      if response.Ok? {
        users := response.data;
      }
    }

    method HandleSearchChange(value: string)
      modifies this
      ensures searchTerm == value
      ensures users == old(users) && isEditing == old(isEditing) && isAdding == old(isAdding)
      ensures currentUser == old(currentUser) && newUser == old(newUser)
    {
      searchTerm := value;
    }

    /** The rows the table shows: the matching users, every copy, in list order. */
    function Shown(): (r: seq<User>)
      reads this
      ensures r == FilteredUsers(users, searchTerm)
      ensures forall u :: u in r <==> u in users && UserMatches(u, searchTerm)
      ensures forall u :: multiset(r)[u] == if UserMatches(u, searchTerm) then multiset(users)[u] else 0
      ensures IsSubsequence(r, users)
    {
      FilteredUsers(users, searchTerm)
    }

    /** `handleEdit`: edit a copy of the row. */
    method HandleEdit(user: User)
      modifies this
      ensures currentUser == Some(user) && isEditing
      ensures users == old(users) && searchTerm == old(searchTerm) && isAdding == old(isAdding) && newUser == old(newUser)
    {
      currentUser := Some(user);
      isEditing := true;
    }

    method HandleAdd()
      modifies this
      ensures isAdding
      ensures users == old(users) && searchTerm == old(searchTerm) && isEditing == old(isEditing)
      ensures currentUser == old(currentUser) && newUser == old(newUser)
    {
      isAdding := true;
    }

    /** An add-modal input's `onChange`: only that field of the form changes. */
    method SetNewUser(field: UserField, value: string)
      modifies this
      ensures newUser == SetNewUserField(old(newUser), field, value)
      ensures users == old(users) && searchTerm == old(searchTerm) && isEditing == old(isEditing)
      ensures isAdding == old(isAdding) && currentUser == old(currentUser)
    {
      newUser := SetNewUserField(newUser, field, value);
    }

    /** An edit-modal input's `onChange`. The modal reads `currentUser.full_name`
        while rendering, so its inputs exist only while there is a current user. */
    method SetCurrentUser(field: UserField, value: string)
      requires currentUser.Some?
      modifies this
      ensures currentUser == Some(SetUserField(old(currentUser).value, field, value))
      ensures users == old(users) && searchTerm == old(searchTerm) && isEditing == old(isEditing)
      ensures isAdding == old(isAdding) && newUser == old(newUser)
    {
      currentUser := Some(SetUserField(currentUser.value, field, value));
    }

    /** The add modal's Cancel button closes it and keeps what was typed. */
    method CancelAdd()
      modifies this
      ensures !isAdding
      ensures users == old(users) && searchTerm == old(searchTerm) && isEditing == old(isEditing)
      ensures currentUser == old(currentUser) && newUser == old(newUser)
    {
      isAdding := false;
    }

    /** `handleSave`: `sent` is the user PUT to the server, if any (with no
        current user, reading `currentUser.id` throws before the request). */
    method HandleSave(response: Outcome<()>) returns (sent: Option<User>)
      modifies this
      ensures sent == old(currentUser)
      ensures if sent.Some? && response.Ok? then
                users == ReplaceUser(old(users), sent.value) && !isEditing && currentUser == None
              else
                users == old(users) && isEditing == old(isEditing) && currentUser == old(currentUser)
      ensures searchTerm == old(searchTerm) && isAdding == old(isAdding) && newUser == old(newUser)
    {
      sent := currentUser;
      if currentUser.None? {
        return;
      }
      if response.Ok? {
        users := ReplaceUser(users, currentUser.value);
        isEditing := false;
        currentUser := None;
      }
    }

    /** The edit modal's Cancel button. */
    method CancelEdit()
      modifies this
      ensures !isEditing && currentUser == None
      ensures users == old(users) && searchTerm == old(searchTerm) && isAdding == old(isAdding) && newUser == old(newUser)
    {
      isEditing := false;
      currentUser := None;
    }

    /** `handleAddSave`: the server's record is appended and the form reset. */
    method HandleAddSave(response: Outcome<User>) returns (sent: NewUser)
      modifies this
      ensures sent == old(newUser)
      ensures response.Ok? ==> users == old(users) + [response.data] && !isAdding && newUser == EmptyNewUser
      ensures response.Failed? ==> users == old(users) && isAdding == old(isAdding) && newUser == old(newUser)
      ensures searchTerm == old(searchTerm) && isEditing == old(isEditing) && currentUser == old(currentUser)
    {
      sent := newUser;
      if response.Ok? {
        users := users + [response.data];
        isAdding := false;
        newUser := EmptyNewUser;
      }
    }

    /** `handleDelete`: a falsy id sends nothing; otherwise `sent` is the id deleted. */
    method HandleDelete(userId: Option<string>, response: Outcome<()>) returns (sent: Option<string>)
      modifies this
      ensures sent == if Truthy(userId) then userId else None
      ensures users == if sent.Some? && response.Ok? then WithoutUser(old(users), sent.value) else old(users)
      ensures searchTerm == old(searchTerm) && isEditing == old(isEditing) && isAdding == old(isAdding)
      ensures currentUser == old(currentUser) && newUser == old(newUser)
    {
      if !Truthy(userId) {
        return None;
      }
      sent := userId;
      if response.Ok? {
        users := WithoutUser(users, userId.value);
      }
    }
  }
}
