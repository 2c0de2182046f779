/**
 * The administrator's user table: the create-user form and its validator, the edit dialog and its
 * change detector, and the three list updates (prepend, update by id, toggle the account).
 */
module UserManagementScreen {
  import opened Wrappers
  import Lists
  import Text

  /** The screen's own role spelling (`"Admin"`, `"Principal"`, `"Cashier"`). */
  datatype Role = Admin | Principal | Cashier

  datatype AccountStatus = Active | Deactivated

  datatype LoginStatus = Online | Offline

  /** One row of the table; `lastLogin` and `createdDate` are ISO timestamps. */
  datatype UserRow = UserRow(
    id: string,
    username: string,
    firstName: string,
    lastName: string,
    fullName: string,
    fatherName: string,
    motherName: string,
    gender: string,
    dateOfBirth: string,
    address: string,
    role: Role,
    accountStatus: AccountStatus,
    loginStatus: LoginStatus,
    lastLogin: string,
    createdDate: string)

  /** The create dialog's inputs, untrimmed as typed; `None` is the unselected role `""`. */
  datatype CreateForm = CreateForm(
    firstName: string,
    lastName: string,
    fatherName: string,
    motherName: string,
    gender: string,
    dateOfBirth: string,
    address: string,
    username: string,
    password: string,
    confirmPassword: string,
    role: Option<Role>)

  const EmptyCreateForm := CreateForm("", "", "", "", "", "", "", "", "", "", None)

  /** The edit dialog's inputs; `None` is the role `""` the dialog holds before any user is opened. */
  datatype EditForm = EditForm(
    name: string,
    role: Option<Role>,
    accountActive: bool,
    showReset: bool,
    newPassword: string)

  const InitialEditForm := EditForm("", None, true, false, "")

  /** The seed rows the table starts with. */
  const SeedUsers: seq<UserRow> := [
    UserRow("1", "admin", "System", "Admin", "System Admin", "N/A", "N/A", "Male", "1990-01-01",
            "Head Office", Admin, Active, Online, "2025-11-04T10:18:00Z", "2024-01-15T00:00:00Z"),
    UserRow("2", "principal", "Rajesh", "Kumar", "Dr. Rajesh Kumar", "Sri Narayana", "Smt. Anasuya",
            "Male", "1980-03-15", "Vijayawada", Principal, Active, Offline, "2025-11-01T07:42:00Z",
            "2024-01-20T00:00:00Z"),
    UserRow("3", "cashier", "Priya", "Sharma", "Priya Sharma", "Mr. Sharma", "Mrs. Sharma", "Female",
            "1996-06-22", "Guntur", Cashier, Active, Online, "2025-11-05T07:55:00Z", "2024-02-01T00:00:00Z")
  ]

  /** The invariant of the table: a deactivated account is never shown online. */
  predicate DeactivatedAreOffline(users: seq<UserRow>)
  {
    forall i :: 0 <= i < |users| && users[i].accountStatus == Deactivated ==> users[i].loginStatus == Offline
  }

  /** The seed rows are all active, so they satisfy the invariant. */
  lemma SeedUsersDeactivatedAreOffline()
    ensures DeactivatedAreOffline(SeedUsers)
    ensures forall i :: 0 <= i < |SeedUsers| ==> SeedUsers[i].accountStatus == Active
  {
  }

  /** The ten text inputs of the create dialog, in the order `canCreate` tests them. */
  function TextFields(f: CreateForm): seq<string>
  {
    [f.firstName, f.lastName, f.fatherName, f.motherName, f.gender, f.dateOfBirth, f.address,
     f.username, f.password, f.confirmPassword]
  }

  /**
   * `canCreate`: every text input is non-blank after trimming, a role is chosen, and the password
   * equals its confirmation exactly, untrimmed.
   */
  function CanCreate(f: CreateForm): (b: bool)
    ensures b ==> f.role.Some? && f.password == f.confirmPassword
  {
    !Text.IsBlank(f.firstName) && !Text.IsBlank(f.lastName) && !Text.IsBlank(f.fatherName)
    && !Text.IsBlank(f.motherName) && !Text.IsBlank(f.gender) && !Text.IsBlank(f.dateOfBirth)
    && !Text.IsBlank(f.address) && !Text.IsBlank(f.username) && !Text.IsBlank(f.password)
    && !Text.IsBlank(f.confirmPassword) && f.role.Some? && f.password == f.confirmPassword
  }

  /** `canCreate` holds exactly when no text input is blank, a role is chosen and the passwords agree. */
  lemma CanCreateIffComplete(f: CreateForm)
    ensures CanCreate(f) <==> (forall i :: 0 <= i < |TextFields(f)| ==> !Text.IsBlank(TextFields(f)[i]))
                              && f.role.Some? && f.password == f.confirmPassword
  {
    var fields := TextFields(f);
    if forall i :: 0 <= i < |fields| ==> !Text.IsBlank(fields[i]) {
      assert !Text.IsBlank(fields[0]) && !Text.IsBlank(fields[1]) && !Text.IsBlank(fields[2]);
      assert !Text.IsBlank(fields[3]) && !Text.IsBlank(fields[4]) && !Text.IsBlank(fields[5]);
      assert !Text.IsBlank(fields[6]) && !Text.IsBlank(fields[7]) && !Text.IsBlank(fields[8]);
      assert !Text.IsBlank(fields[9]);
    }
  }

  /**
   * The row `handleCreateUser` builds: the full name is the trim of the untrimmed first and last
   * names joined by a space, every other text is trimmed, and the account is active and offline.
   * `freshId` stands for `crypto.randomUUID()` and `now` for the current ISO time.
   */
  function NewUser(f: CreateForm, freshId: string, now: string): (u: UserRow)
    requires f.role.Some?
    ensures u.id == freshId && u.role == f.role.value
    ensures u.fullName == Text.Trim(f.firstName + " " + f.lastName)
    ensures u.username == Text.Trim(f.username) && u.firstName == Text.Trim(f.firstName)
    ensures u.lastName == Text.Trim(f.lastName) && u.fatherName == Text.Trim(f.fatherName)
    ensures u.motherName == Text.Trim(f.motherName) && u.gender == Text.Trim(f.gender)
    ensures u.dateOfBirth == Text.Trim(f.dateOfBirth) && u.address == Text.Trim(f.address)
    ensures u.accountStatus == Active && u.loginStatus == Offline
    ensures u.lastLogin == now && u.createdDate == now
  {
    UserRow(
      id := freshId,
      username := Text.Trim(f.username),
      firstName := Text.Trim(f.firstName),
      lastName := Text.Trim(f.lastName),
      fullName := Text.Trim(f.firstName + " " + f.lastName),
      fatherName := Text.Trim(f.fatherName),
      motherName := Text.Trim(f.motherName),
      gender := Text.Trim(f.gender),
      dateOfBirth := Text.Trim(f.dateOfBirth),
      address := Text.Trim(f.address),
      role := f.role.value,
      accountStatus := Active,
      loginStatus := Offline,
      lastLogin := now,
      createdDate := now)
  }

  /** A non-blank input stays non-blank once trimmed. */
  lemma TrimKeepsNonBlank(s: string)
    requires !Text.IsBlank(s)
    ensures !Text.IsBlank(Text.Trim(s))
  {
    Text.BlankIffTrimEmpty(s);
    Text.BlankIffTrimEmpty(Text.Trim(s));
    Text.TrimIdempotent(s);
  }

  /** A row created from a form that passes `canCreate` has no blank text field. */
  lemma CreatedUserHasNoBlankField(f: CreateForm, freshId: string, now: string)
    requires CanCreate(f)
    ensures var u := NewUser(f, freshId, now);
      !Text.IsBlank(u.username) && !Text.IsBlank(u.firstName) && !Text.IsBlank(u.lastName)
      && !Text.IsBlank(u.fullName) && !Text.IsBlank(u.fatherName) && !Text.IsBlank(u.motherName)
      && !Text.IsBlank(u.gender) && !Text.IsBlank(u.dateOfBirth) && !Text.IsBlank(u.address)
  {
    var u := NewUser(f, freshId, now);
    assert !Text.IsBlank(u.username) by { TrimKeepsNonBlank(f.username); }
    assert !Text.IsBlank(u.firstName) by { TrimKeepsNonBlank(f.firstName); }
    assert !Text.IsBlank(u.lastName) by { TrimKeepsNonBlank(f.lastName); }
    assert !Text.IsBlank(u.fatherName) by { TrimKeepsNonBlank(f.fatherName); }
    assert !Text.IsBlank(u.motherName) by { TrimKeepsNonBlank(f.motherName); }
    assert !Text.IsBlank(u.gender) by { TrimKeepsNonBlank(f.gender); }
    assert !Text.IsBlank(u.dateOfBirth) by { TrimKeepsNonBlank(f.dateOfBirth); }
    assert !Text.IsBlank(u.address) by { TrimKeepsNonBlank(f.address); }
    assert !Text.IsBlank(u.fullName) by { FullNameNonBlank(f.firstName, f.lastName); }
  }

  /** The full name of a user whose first name is non-blank is non-blank. */
  lemma FullNameNonBlank(first: string, last: string)
    requires !Text.IsBlank(first)
    ensures !Text.IsBlank(Text.Trim(first + " " + last))
  {
    Text.NonBlankConcat([], first, " " + last);
    assert [] + first + (" " + last) == first + " " + last;
    TrimKeepsNonBlank(first + " " + last);
  }

  /** `users.find(u => u.id === editUserId)`: the row being edited, if any. */
  function CurrentEditingUser(users: seq<UserRow>, editUserId: Option<string>): (r: Option<UserRow>)
    ensures editUserId.None? ==> r.None?
    ensures r.None? <==> forall i :: 0 <= i < |users| ==> Some(users[i].id) != editUserId
    ensures r.Some? ==> r.value in users && Some(r.value.id) == editUserId
    ensures r.Some? ==> exists i :: 0 <= i < |users| && users[i] == r.value
                          && forall j :: 0 <= j < i ==> Some(users[j].id) != editUserId
  {
    var p := (u: UserRow) => Some(u.id) == editUserId;
    var r := Lists.Find(p, users);
    assert r.Some? ==> exists i :: Lists.IsFirstMatch(p, users, i) && users[i] == r.value;
    r
  }

  /** `openEdit(u)`: the dialog starts from the row's full name, role and account status. */
  function OpenEditForm(u: UserRow): (f: EditForm)
    ensures f.name == u.fullName && f.role == Some(u.role)
    ensures f.accountActive <==> u.accountStatus == Active
    ensures !f.showReset && f.newPassword == ""
  {
    EditForm(u.fullName, Some(u.role), u.accountStatus == Active, false, "")
  }

  /**
   * `hasEditChanges`: false with no row selected; otherwise the role, the trimmed name or the
   * account flag differs from the row, or a reset is requested with a non-blank new password.
   */
  function HasEditChanges(current: Option<UserRow>, f: EditForm): (b: bool)
    ensures current.None? ==> !b
    ensures current.Some? && f.showReset && !Text.IsBlank(f.newPassword) ==> b
    ensures current.Some? && !b ==>
              f.role == Some(current.value.role) && Text.Trim(f.name) == current.value.fullName
              && (f.accountActive <==> current.value.accountStatus == Active)
    ensures current.Some? ==>
              (b <==> f.role != Some(current.value.role) || Text.Trim(f.name) != current.value.fullName
                      || f.accountActive != (current.value.accountStatus == Active)
                      || (f.showReset && !Text.IsBlank(f.newPassword)))
  {
    Text.BlankIffTrimEmpty(f.newPassword);
    match current
    case None => false
    case Some(u) =>
      f.role != Some(u.role)
      || Text.Trim(f.name) != u.fullName
      || (if f.accountActive then Active else Deactivated) != u.accountStatus
      || (f.showReset && |Text.Trim(f.newPassword)| > 0)
  }

  /** Right after `openEdit`, saving is enabled exactly when the row's full name is not already trimmed. */
  lemma OpenedFormHasNoChanges(u: UserRow)
    ensures HasEditChanges(Some(u), OpenEditForm(u)) <==> Text.Trim(u.fullName) != u.fullName
  {
    var f := OpenEditForm(u);
    assert (if f.accountActive then Active else Deactivated) == u.accountStatus;
    assert !f.showReset;
  }

  /** The row a save makes of `u`: new trimmed name, role and status; offline when deactivated. */
  function ApplyEdit(u: UserRow, f: EditForm): (r: UserRow)
    requires f.role.Some?
    ensures r.id == u.id && r.username == u.username && r.firstName == u.firstName
    ensures r.lastName == u.lastName && r.lastLogin == u.lastLogin && r.createdDate == u.createdDate
    ensures r.fullName == Text.Trim(f.name) && r.role == f.role.value
    ensures r.accountStatus == (if f.accountActive then Active else Deactivated)
    ensures r.accountStatus == Deactivated ==> r.loginStatus == Offline
    ensures r.accountStatus == Active ==> r.loginStatus == u.loginStatus
    ensures r.fatherName == u.fatherName && r.motherName == u.motherName && r.gender == u.gender
    ensures r.dateOfBirth == u.dateOfBirth && r.address == u.address
  {
    u.(fullName := Text.Trim(f.name),
       role := f.role.value,
       accountStatus := if f.accountActive then Active else Deactivated,
       loginStatus := if f.accountActive then u.loginStatus else Offline)
  }

  /** Saving a form `hasEditChanges` rejects leaves a row that satisfies the invariant as it was. */
  lemma UnchangedFormSavesNothing(u: UserRow, f: EditForm)
    requires f.role.Some?
    requires u.accountStatus == Deactivated ==> u.loginStatus == Offline
    requires !HasEditChanges(Some(u), f)
    ensures ApplyEdit(u, f) == u
  {
  }

  /** `handleSaveEdit`'s map: the rows with the edited id are updated, every other row is kept. */
  function SaveEdit(users: seq<UserRow>, id: string, f: EditForm): (r: seq<UserRow>)
    requires f.role.Some?
    ensures |r| == |users|
    ensures forall i :: 0 <= i < |users| && users[i].id != id ==> r[i] == users[i]
    ensures forall i :: 0 <= i < |users| && users[i].id == id ==> r[i] == ApplyEdit(users[i], f)
    ensures DeactivatedAreOffline(users) ==> DeactivatedAreOffline(r)
  {
    seq(|users|, i requires 0 <= i < |users| => if users[i].id == id then ApplyEdit(users[i], f) else users[i])
  }

  /** `handleToggleAccount(id)`: flips the status of the rows with that id; deactivating sets offline. */
  function Toggle(users: seq<UserRow>, id: string): (r: seq<UserRow>)
    ensures |r| == |users|
    ensures forall i :: 0 <= i < |users| && users[i].id != id ==> r[i] == users[i]
    ensures forall i :: 0 <= i < |users| && users[i].id == id ==>
              r[i].accountStatus != users[i].accountStatus
              && r[i] == users[i].(accountStatus := r[i].accountStatus, loginStatus := r[i].loginStatus)
    ensures forall i :: 0 <= i < |users| && users[i].id == id && users[i].accountStatus == Active ==>
              r[i].loginStatus == Offline
    ensures forall i :: 0 <= i < |users| && users[i].id == id && users[i].accountStatus == Deactivated ==>
              r[i].loginStatus == users[i].loginStatus
    ensures DeactivatedAreOffline(users) ==> DeactivatedAreOffline(r)
  {
    seq(|users|, i requires 0 <= i < |users| =>
      var u := users[i];
      if u.id == id then
        u.(accountStatus := if u.accountStatus == Active then Deactivated else Active,
           loginStatus := if u.accountStatus == Active then Offline else u.loginStatus)
      else u)
  }

  /** Toggling the same id twice restores every status, except that a deactivation logs the user out. */
  lemma ToggleTwice(users: seq<UserRow>, id: string)
    ensures |Toggle(Toggle(users, id), id)| == |users|
    ensures forall i :: 0 <= i < |users| ==>
              Toggle(Toggle(users, id), id)[i].accountStatus == users[i].accountStatus
    ensures forall i :: 0 <= i < |users| && (users[i].id != id || users[i].loginStatus == Offline) ==>
              Toggle(Toggle(users, id), id)[i] == users[i]
  {
  }

  /** The state of the user management screen. */
  class UserManagement {
    var users: seq<UserRow>
    var showCreateModal: bool
    var createForm: CreateForm
    var showEditModal: bool
    var editUserId: Option<string>
    var editForm: EditForm

    /**
     * The table keeps its invariant, and once a row has been opened for editing the dialog holds a
     * role (the role select never produces `""`).
     */
    ghost predicate Valid()
      reads this
    {
      DeactivatedAreOffline(users) && (editUserId.Some? ==> editForm.role.Some?)
    }

    /** The screen starts with the seed rows, empty forms and both dialogs closed. */
    constructor ()
      ensures users == SeedUsers
      ensures createForm == EmptyCreateForm && editForm == InitialEditForm && editUserId.None?
      ensures !showCreateModal && !showEditModal
      ensures Valid()
    {
      users := SeedUsers;
      showCreateModal := false;
      createForm := EmptyCreateForm;
      showEditModal := false;
      editUserId := None;
      editForm := InitialEditForm;
    }

    /** The "Create User" button is enabled exactly when `canCreate` holds. */
    function CreateEnabled(): (b: bool)
      reads this
      ensures b ==> createForm.role.Some? && createForm.password == createForm.confirmPassword
    {
      CanCreate(createForm)
    }

    /** The "Save" button is enabled exactly when `hasEditChanges` holds. */
    function SaveEnabled(): (b: bool)
      reads this
      ensures b ==> CurrentEditingUser(users, editUserId).Some?
    {
      HasEditChanges(CurrentEditingUser(users, editUserId), editForm)
    }

    /** The dialog's `onOpenChange` and the "Add User" / "Cancel" buttons. */
    method SetShowCreateModal(open: bool)
      modifies this
      ensures showCreateModal == open
      ensures users == old(users) && createForm == old(createForm)
      ensures editUserId == old(editUserId) && editForm == old(editForm) && showEditModal == old(showEditModal)
    {
      showCreateModal := open;
    }

    /** The create dialog's inputs: each `onChange` replaces one field of the form. */
    method SetCreateForm(f: CreateForm)
      modifies this
      ensures createForm == f
      ensures users == old(users) && showCreateModal == old(showCreateModal)
      ensures editUserId == old(editUserId) && editForm == old(editForm) && showEditModal == old(showEditModal)
    {
      createForm := f;
    }

    /**
     * `handleCreateUser`, reachable once a role is chosen: a password mismatch changes nothing;
     * otherwise the new row is put in front of the previous rows and the dialog is reset and closed.
     */
    method HandleCreateUser(freshId: string, now: string)
      requires Valid()
      requires createForm.role.Some?
      modifies this
      ensures old(createForm).password != old(createForm).confirmPassword ==>
                createForm == old(createForm) && users == old(users) && showCreateModal == old(showCreateModal)
      ensures old(createForm).password == old(createForm).confirmPassword ==>
                users == [NewUser(old(createForm), freshId, now)] + old(users)
                && createForm == EmptyCreateForm && !showCreateModal
      ensures editUserId == old(editUserId) && editForm == old(editForm) && showEditModal == old(showEditModal)
      ensures Valid()
    {
      if createForm.password == createForm.confirmPassword {
        var u := NewUser(createForm, freshId, now);
        assert DeactivatedAreOffline([u] + users);
        users := [u] + users;
        showCreateModal := false;
        createForm := EmptyCreateForm;
      }
    }

    /** `openEdit(u)`: select the row and load it into the edit dialog. */
    method OpenEdit(u: UserRow)
      requires Valid()
      modifies this
      ensures editUserId == Some(u.id) && editForm == OpenEditForm(u) && showEditModal
      ensures users == old(users) && createForm == old(createForm) && showCreateModal == old(showCreateModal)
      ensures Valid()
    {
      editUserId := Some(u.id);
      editForm := OpenEditForm(u);
      showEditModal := true;
    }

    /** The edit dialog's inputs; the role select only ever yields a role. */
    method SetEditForm(f: EditForm)
      requires Valid()
      requires f.role.Some? || editUserId.None?
      modifies this
      ensures editForm == f
      ensures users == old(users) && editUserId == old(editUserId) && showEditModal == old(showEditModal)
      ensures createForm == old(createForm) && showCreateModal == old(showCreateModal)
      ensures Valid()
    {
      editForm := f;
    }

    /** The edit dialog's `onOpenChange` and "Cancel": the selection is kept. */
    method SetShowEditModal(open: bool)
      modifies this
      ensures showEditModal == open
      ensures users == old(users) && editUserId == old(editUserId) && editForm == old(editForm)
      ensures createForm == old(createForm) && showCreateModal == old(showCreateModal)
    {
      showEditModal := open;
    }

    /**
     * `handleSaveEdit`: with no row selected nothing happens; otherwise the selected id's rows are
     * updated from the form, and the dialog is closed and the selection cleared.
     */
    method HandleSaveEdit()
      requires Valid()
      modifies this
      ensures CurrentEditingUser(old(users), old(editUserId)).None? ==>
                users == old(users) && editUserId == old(editUserId) && showEditModal == old(showEditModal)
      ensures CurrentEditingUser(old(users), old(editUserId)).Some? ==>
                users == SaveEdit(old(users), old(editUserId).value, old(editForm))
                && editUserId.None? && !showEditModal
      ensures editForm == old(editForm)
      ensures createForm == old(createForm) && showCreateModal == old(showCreateModal)
      ensures Valid()
    {
      var current := CurrentEditingUser(users, editUserId);
      if current.None? {
        return;
      }
      users := SaveEdit(users, current.value.id, editForm);
      showEditModal := false;
      editUserId := None;
    }

    /** `handleToggleAccount(id)`: flips the account of the rows with that id. */
    method HandleToggleAccount(id: string)
      requires Valid()
      modifies this
      ensures users == Toggle(old(users), id)
      ensures editUserId == old(editUserId) && editForm == old(editForm) && showEditModal == old(showEditModal)
      ensures createForm == old(createForm) && showCreateModal == old(showCreateModal)
      ensures Valid()
    {
      users := Toggle(users, id);
    }
  }

  /**
   * Creating from a form that passes `canCreate` adds exactly one row, in front, and it is the
   * only row of the result that was not there before.
   */
  method CreateOnce(freshId: string, now: string, f: CreateForm) returns (before: seq<UserRow>, after: seq<UserRow>)
    requires CanCreate(f)
    ensures before == SeedUsers
    ensures |after| == |before| + 1 && after[1..] == before
    ensures after[0].accountStatus == Active && after[0].loginStatus == Offline
    ensures DeactivatedAreOffline(after)
  {
    var screen := new UserManagement();
    screen.SetCreateForm(f);
    before := screen.users;
    screen.HandleCreateUser(freshId, now);
    after := screen.users;
  }
}
