/** The accounts table (src/app/admin/accounts/data-table.tsx): loading the
    users newest first, the row selection and the bulk delete that walks it,
    the edit form and its schema, and the spreadsheet import. Row ids are the
    rows' indexes, react-table's default. */
module DataTable {
  import opened Wrappers
  import opened Seqs
  import opened Strings
  import opened UserRecord

  // ---------------------------------------------------------------------
  // The edit form

  /** The edit form's fields. Role and status are whatever the selected user
      held; the schema decides whether they are among the allowed values. */
  datatype EditForm = EditForm(accountId: string, name: string, email: string, role: string, status: string)

  datatype EditErrors = EditErrors(accountId: Option<string>, name: Option<string>,
                                   role: Option<string>, status: Option<string>)

  predicate Passes(e: EditErrors) {
    e.accountId.None? && e.name.None? && e.role.None? && e.status.None?
  }

  /** The edit schema: an account ID of at least ten UTF-16 code units, a name, any
      email, the role "Admin" or "Student" and the status "Ready" or
      "Blocked". */
  function ValidateEdit(f: EditForm): (e: EditErrors)
    ensures Passes(e) <==> Utf16Length(f.accountId) >= 10 && f.name != "" && f.role in {"Admin", "Student"} && f.status in {"Ready", "Blocked"}
    ensures e.accountId.Some? ==> e.accountId.value == "Account ID must have atleast 10 characters"
    ensures e.name.Some? ==> e.name.value == "Name is required"
    ensures e.role.Some? ==> e.role.value == "Invalid role"
    ensures e.status.Some? ==> e.status.value == "Invalid status"
  {
    EditErrors(
      if Utf16Length(f.accountId) < 10 then Some("Account ID must have atleast 10 characters") else None,
      if |f.name| < 1 then Some("Name is required") else None,
      if f.role != "Admin" && f.role != "Student" then Some("Invalid role") else None,
      if f.status != "Ready" && f.status != "Blocked" then Some("Invalid status") else None)
  }

  /** The effect on `selectedUser`: the form takes the user's values. */
  function FormFromUser(u: User): (f: EditForm)
    ensures f.accountId == u.accountId && f.name == u.username && f.email == u.email
    ensures f.role == u.role && f.status == u.status
  {
    EditForm(u.accountId, u.username, u.email, u.role, u.status)
  }

  /** The `editedUser` body of the edit request. */
  datatype EditedUser = EditedUser(accountId: string, username: string, email: string, role: string, status: string)

  function EditPayload(f: EditForm): (p: EditedUser)
    ensures p.accountId == f.accountId && p.username == f.name && p.email == f.email
    ensures p.role == f.role && p.status == f.status
  {
    EditedUser(f.accountId, f.name, f.email, f.role, f.status)
  }

  /** Saving a form loaded from a user without touching it sends the user's
      own values back, and such a form passes exactly when the user's record
      does. */
  lemma UnchangedEditResends(u: User)
    ensures var p := EditPayload(FormFromUser(u));
      p.accountId == u.accountId && p.username == u.username && p.email == u.email
      && p.role == u.role && p.status == u.status
    ensures Passes(ValidateEdit(FormFromUser(u))) <==>
      Utf16Length(u.accountId) >= 10 && u.username != "" && u.role in {"Admin", "Student"} && u.status in {"Ready", "Blocked"}
  {
  }

  // ---------------------------------------------------------------------
  // Import

  /** `/\.(xlsx|xls|csv)$/`: the name ends with one of the three extensions,
      letter case included. */
  predicate AcceptedImport(name: string)
    ensures AcceptedImport(name) ==> |name| >= 4 && (name[|name| - 4] == '.' || (|name| >= 5 && name[|name| - 5] == '.'))
  {
    EndsWith(name, ".xlsx") || EndsWith(name, ".xls") || EndsWith(name, ".csv")
  }

  /** Any name with one of the three extensions is accepted, and an accepted
      name ends in 'x', 's' or 'v' (so neither an upper-case extension nor a
      trailing suffix passes). */
  lemma ImportExtensions(base: string, name: string)
    ensures AcceptedImport(base + ".xlsx") && AcceptedImport(base + ".xls") && AcceptedImport(base + ".csv")
    ensures AcceptedImport(name) ==> name[|name| - 1] in {'x', 's', 'v'}
  {
    assert (base + ".xlsx")[|base|..] == ".xlsx";
    assert (base + ".xls")[|base| ..] == ".xls";
    assert (base + ".csv")[|base|..] == ".csv";
    if EndsWith(name, ".xlsx") { assert name[|name| - 1] == ".xlsx"[4]; }
    if EndsWith(name, ".xls") { assert name[|name| - 1] == ".xls"[3]; }
    if EndsWith(name, ".csv") { assert name[|name| - 1] == ".csv"[3]; }
  }

  /** How the upload request ends: the server's `message`, or an error that
      is an axios error or not, with the message of its response if any. */
  datatype UploadResponse = Uploaded(message: Option<string>) | UploadFailed(isAxiosError: bool, message: Option<string>)

  datatype Toast = SuccessToast(text: string) | ErrorToast(text: string) | InfoToast(text: string)

  /** `a || b` on an optional string. */
  function OrElse(a: Option<string>, b: string): (r: string)
    ensures a.Some? && a.value != "" ==> r == a.value
    ensures !(a.Some? && a.value != "") ==> r == b
  {
    if a.Some? && a.value != "" then a.value else b
  }

  /** The toast after an upload: a success toast exactly for a completed
      upload, with the server's message or the default text; the server's
      message only when the error is an axios error. */
  function UploadToast(r: UploadResponse): (t: Toast)
    ensures t.SuccessToast? <==> r.Uploaded?
    ensures !t.InfoToast?
    ensures r.Uploaded? ==> t.text == OrElse(r.message, "Excel file imported successfully!")
    ensures r.UploadFailed? && !r.isAxiosError ==> t == ErrorToast("Failed to import Excel file")
    ensures r.UploadFailed? && r.isAxiosError ==> t == ErrorToast(OrElse(r.message, "Failed to import Excel file"))
  {
    match r
    case Uploaded(message) => SuccessToast(OrElse(message, "Excel file imported successfully!"))
    case UploadFailed(isAxios, message) =>
      ErrorToast(if isAxios then OrElse(message, "Failed to import Excel file") else "Failed to import Excel file")
  }

  // ---------------------------------------------------------------------
  // Selection

  /** The selected row indexes of a table of `n` rows, in increasing order:
      each selected index below `n` exactly once. */
  function SelectedIndexes(n: nat, selection: set<nat>): (ix: seq<nat>)
    ensures forall k :: 0 <= k < |ix| ==> ix[k] < n && ix[k] in selection
    ensures forall i :: 0 <= i < n && i in selection ==> i in ix
    ensures forall p, q :: 0 <= p < q < |ix| ==> ix[p] < ix[q]
    decreases n
  {
    if n == 0 then [] else SelectedIndexes(n - 1, selection) + (if n - 1 in selection then [n - 1] else [])
  }

  /** `table.getSelectedRowModel().rows`: the users whose row index is
      selected, in table order (`SelectedUsersInOrder`). */
  function SelectedUsers(users: seq<User>, selection: set<nat>): (r: seq<User>)
    ensures |r| <= |users|
    ensures forall k :: 0 <= k < |r| ==> r[k] in users
    ensures forall i :: 0 <= i < |users| && i in selection ==> users[i] in r
    ensures selection == {} ==> r == []
    decreases |users|
  {
    if |users| == 0 then []
    else
      var last := |users| - 1;
      var front := SelectedUsers(users[..last], selection);
      assert forall k :: 0 <= k < |front| ==> front[k] in users by {
        forall k | 0 <= k < |front| ensures front[k] in users {
          assert front[k] in users[..last];
        }
      }
      assert forall i :: 0 <= i < last ==> users[i] == users[..last][i];
      front + (if last in selection then [users[last]] else [])
  }

  /** The selected users are exactly the users at the selected indexes, in
      increasing index order: no unselected row is taken, and none twice. */
  lemma {:induction false} SelectedUsersInOrder(users: seq<User>, selection: set<nat>)
    ensures var ix := SelectedIndexes(|users|, selection);
      var r := SelectedUsers(users, selection);
      |r| == |ix| && forall k :: 0 <= k < |r| ==> r[k] == users[ix[k]]
    decreases |users|
  {
    if |users| > 0 {
      var last := |users| - 1;
      SelectedUsersInOrder(users[..last], selection);
      var front := SelectedUsers(users[..last], selection);
      assert SelectedUsers(users, selection) == front + (if last in selection then [users[last]] else []);
      SelectedUsersStep(users, selection, front);
    }
  }

  /** The step of `SelectedUsers`: appending the last row, when it is
      selected, to the selection of the rows before it. */
  lemma SelectedUsersStep(users: seq<User>, selection: set<nat>, front: seq<User>)
    requires |users| > 0
    requires var ix := SelectedIndexes(|users| - 1, selection);
      |front| == |ix| && forall k :: 0 <= k < |front| ==> front[k] == users[..|users| - 1][ix[k]]
    ensures var r := front + (if |users| - 1 in selection then [users[|users| - 1]] else []);
      var ix := SelectedIndexes(|users|, selection);
      |r| == |ix| && forall k :: 0 <= k < |r| ==> r[k] == users[ix[k]]
  {
    var last := |users| - 1;
    var r := front + (if last in selection then [users[last]] else []);
    var ix0 := SelectedIndexes(last, selection);
    var ix := SelectedIndexes(|users|, selection);
    assert ix == ix0 + (if last in selection then [last] else []);
    forall k | 0 <= k < |r| ensures r[k] == users[ix[k]] {
      if k < |front| {
        assert ix[k] == ix0[k] && ix0[k] < last;
        assert front[k] == users[..last][ix0[k]];
      }
    }
  }

  predicate DeleteSucceeds(deleted: string -> bool, u: User) {
    deleted(u.id)
  }

  /** The toast after a complete bulk delete. */
  function DeletedToast(count: nat): (t: Toast)
    ensures t.InfoToast?
    ensures var n := NatToString(count);
      t.text == "(" + n + ") User/s has been deleted." && DigitsValue(n) == count
  {
    NatToStringValue(count);
    InfoToast("(" + NatToString(count) + ") User/s has been deleted.")
  }

  /** The loop of `deleteUser`: the rows a removal request goes out for,
      in order, up to and including the first that fails, and whether none
      failed. */
  method SendDeletes(rows: seq<User>, deleted: string -> bool) returns (sent: seq<User>, ok: bool)
    ensures sent == ThroughFirstFailure(rows, u => DeleteSucceeds(deleted, u))
    ensures ok <==> AllOk(rows, u => DeleteSucceeds(deleted, u))
  {
    ghost var succeeds := (u: User) => DeleteSucceeds(deleted, u);
    var i := 0;
    var failed := false;
    sent := [];
    while i < |rows| && !failed
      invariant 0 <= i <= |rows|
      invariant sent == rows[..i]
      invariant forall k :: 0 <= k < i - 1 ==> succeeds(rows[k])
      invariant i > 0 && !failed ==> succeeds(rows[i - 1])
      invariant failed ==> i > 0 && !succeeds(rows[i - 1])
      decreases |rows| - i
    {
      sent := sent + [rows[i]];
      if !deleted(rows[i].id) {
        failed := true;
      }
      i := i + 1;
    }
    if failed {
      ThroughFirstFailurePrefix(rows, succeeds, i);
    } else if |rows| > 0 {
      ThroughFirstFailurePrefix(rows, succeeds, |rows|);
    }
    ok := !failed;
  }

  /** The table's state. `fetchRequests` counts the calls of `fetchUsers`
      that handlers start without awaiting; each one's completion is
      `FetchUsers`. */
  class Table {
    var users: seq<User>
    var refresh: int
    var loadingTable: bool
    var loading: bool
    var rowSelection: set<nat>
    var deleteModalOpen: bool
    var openEditDialog: bool
    var openViewDialog: bool
    var selectedUser: Option<User>
    var editForm: EditForm
    var editErrors: EditErrors
    var isUploading: bool
    /** The file the hidden input holds. */
    var fileInput: Option<string>
    var toasts: seq<Toast>
    var deleteRequests: seq<User>
    var editRequests: seq<(Option<string>, EditedUser)>
    var uploads: seq<string>
    var fetchRequests: nat

    constructor ()
      ensures users == [] && refresh == 0 && loadingTable && !loading && rowSelection == {}
      ensures !deleteModalOpen && !openEditDialog && !openViewDialog && selectedUser == None
      ensures !isUploading && fileInput == None && toasts == [] && deleteRequests == [] && editRequests == []
      ensures uploads == [] && fetchRequests == 0
    {
      users, refresh, loadingTable, loading, rowSelection := [], 0, true, false, {};
      deleteModalOpen, openEditDialog, openViewDialog, selectedUser := false, false, false, None;
      editForm, editErrors := EditForm("", "", "", "", ""), EditErrors(None, None, None, None);
      isUploading, fileInput, toasts, deleteRequests, editRequests := false, None, [], [], [];
      uploads, fetchRequests := [], 0;
    }

    /** `fetchUsers` completing: the server's list reversed, and one more
        for `refresh`, which the
        two user charts follow; a failure keeps both. */
    method FetchUsers(response: Outcome<seq<User>>)
      modifies this`users, this`loadingTable, this`refresh
      ensures !loadingTable
      ensures response.Ok? ==> users == Reverse(response.value) && refresh == old(refresh) + 1
      ensures response.Ok? ==> Reverse(users) == response.value && multiset(users) == multiset(response.value)
      ensures response.Fail? ==> users == old(users) && refresh == old(refresh)
    {
      if response.Ok? {
        users := Reverse(response.value);
        ReverseReverse(response.value);
        loadingTable := false;
        refresh := refresh + 1;
      } else {
        loadingTable := false;
      }
    }

    /** The delete button is rendered iff some row is selected. */
    predicate DeleteControlShown()
      reads this
      ensures DeleteControlShown() <==> rowSelection != {}
    {
      |rowSelection| != 0
    }

    /** react-table's `onRowSelectionChange`; the delete button appears
        exactly when the new selection holds a row. */
    method SetRowSelection(selection: set<nat>)
      modifies this`rowSelection
      ensures rowSelection == selection
      ensures DeleteControlShown() <==> selection != {}
    {
      rowSelection := selection;
    }

    method SetDeleteModalOpen(open: bool)
      modifies this`deleteModalOpen
      ensures deleteModalOpen == open
    {
      deleteModalOpen := open;
    }

    /** The edit dialog's `onOpenChange`: closing it keeps the selection and
        the form as typed. */
    method SetOpenEditDialog(open: bool)
      modifies this`openEditDialog
      ensures openEditDialog == open
    {
      openEditDialog := open;
    }

    /** The details dialog's `onOpenChange`. */
    method SetOpenViewDialog(open: bool)
      modifies this`openViewDialog
      ensures openViewDialog == open
    {
      openViewDialog := open;
    }

    /** `deleteUser`: one removal request per selected row, in table order,
        each awaited, stopping at the first that fails. When all succeed the
        table is refetched, the selection cleared and the dialog closed; a
        failure closes the dialog with an error toast and leaves the spinner
        on and the selection as it was. */
    method DeleteUser(deleted: string -> bool)
      modifies this`loading, this`deleteRequests, this`toasts, this`fetchRequests, this`rowSelection, this`deleteModalOpen
      ensures var rows := SelectedUsers(old(users), old(rowSelection));
        && deleteRequests == old(deleteRequests) + ThroughFirstFailure(rows, u => DeleteSucceeds(deleted, u))
        && !deleteModalOpen
        && (AllOk(rows, u => DeleteSucceeds(deleted, u)) ==>
              && toasts == old(toasts) + [DeletedToast(|rows|)] && fetchRequests == old(fetchRequests) + 1
              && rowSelection == {} && !DeleteControlShown() && !loading)
        && (!AllOk(rows, u => DeleteSucceeds(deleted, u)) ==>
              && toasts == old(toasts) + [ErrorToast("Unknown error has occured")]
              && fetchRequests == old(fetchRequests) && rowSelection == old(rowSelection) && loading)
    {
      loading := true;
      var rows := SelectedUsers(users, rowSelection);
      var sent, ok := SendDeletes(rows, deleted);
      deleteRequests := deleteRequests + sent;
      deleteModalOpen := false;
      if ok {
        toasts := toasts + [DeletedToast(|rows|)];
        fetchRequests := fetchRequests + 1;
        rowSelection := {};
        loading := false;
      } else {
        toasts := toasts + [ErrorToast("Unknown error has occured")];
      }
    }

    /** `handleUserSelection`, with the effect that loads the form. The
        effect runs only when the selected user changes, so picking the
        user already selected keeps what was typed into the form. */
    method SelectForEdit(u: User)
      modifies this`openEditDialog, this`selectedUser, this`editForm
      ensures openEditDialog && selectedUser == Some(u)
      ensures old(selectedUser) != Some(u) ==> editForm == FormFromUser(u)
      ensures old(selectedUser) == Some(u) ==> editForm == old(editForm)
    {
      openEditDialog := true;
      if selectedUser != Some(u) {
        editForm := FormFromUser(u);
      }
      selectedUser := Some(u);
    }

    /** `handleViewCompleteDetails`, with the same effect. */
    method ViewDetails(u: User)
      modifies this`openViewDialog, this`selectedUser, this`editForm
      ensures openViewDialog && selectedUser == Some(u)
      ensures old(selectedUser) != Some(u) ==> editForm == FormFromUser(u)
      ensures old(selectedUser) == Some(u) ==> editForm == old(editForm)
    {
      openViewDialog := true;
      if selectedUser != Some(u) {
        editForm := FormFromUser(u);
      }
      selectedUser := Some(u);
    }

    /** Typing into the edit dialog's inputs or picking a role or status. */
    method EditFields(f: EditForm)
      modifies this`editForm
      ensures editForm == f
    {
      editForm := f;
    }

    /** `editUser`: the payload goes to the selected user's id; success
        closes the dialog, stops the spinner and refetches, and a failure
        leaves the dialog open and the spinner on. */
    method EditUser(data: EditForm, ok: bool)
      modifies this`loading, this`editRequests, this`openEditDialog, this`toasts, this`fetchRequests
      ensures var id := if old(selectedUser).Some? then Some(old(selectedUser).value.id) else None;
        editRequests == old(editRequests) + [(id, EditPayload(data))]
      ensures ok ==> (!openEditDialog && !loading && toasts == old(toasts) + [SuccessToast("Edit successfully!")]
                      && fetchRequests == old(fetchRequests) + 1)
      ensures !ok ==> (openEditDialog == old(openEditDialog) && loading && toasts == old(toasts)
                       && fetchRequests == old(fetchRequests))
    {
      loading := true;
      var id := if selectedUser.Some? then Some(selectedUser.value.id) else None;
      editRequests := editRequests + [(id, EditPayload(data))];
      if ok {
        openEditDialog := false;
        loading := false;
        toasts := toasts + [SuccessToast("Edit successfully!")];
        fetchRequests := fetchRequests + 1;
      }
    }

    /** The Save button: `handleSubmit` runs the schema and calls `editUser`
        only when the form passes. */
    method SubmitEdit(ok: bool)
      modifies this`editErrors, this`loading, this`editRequests, this`openEditDialog, this`toasts, this`fetchRequests
      ensures editErrors == ValidateEdit(editForm)
      ensures !Passes(editErrors) ==> (editRequests == old(editRequests) && loading == old(loading)
                                       && openEditDialog == old(openEditDialog) && toasts == old(toasts)
                                       && fetchRequests == old(fetchRequests))
      ensures Passes(editErrors) ==>
        var id := if selectedUser.Some? then Some(selectedUser.value.id) else None;
        && editRequests == old(editRequests) + [(id, EditPayload(editForm))]
        && (ok ==> (!openEditDialog && !loading && toasts == old(toasts) + [SuccessToast("Edit successfully!")]
                    && fetchRequests == old(fetchRequests) + 1))
        && (!ok ==> (openEditDialog == old(openEditDialog) && loading && toasts == old(toasts)
                     && fetchRequests == old(fetchRequests)))
    {
      editErrors := ValidateEdit(editForm);
      if Passes(editErrors) {
        EditUser(editForm, ok);
      }
    }

    /** `handleFileChange` for the file picked (none when the dialog was
        cancelled) and the way its upload ends. A name without an accepted
        extension raises an error toast and changes nothing else (the input
        keeps the file); otherwise the file is uploaded and, however that
        ends, the uploading flag drops and the input is cleared. */
    method HandleFileChange(file: Option<string>, response: UploadResponse)
      modifies this`isUploading, this`fileInput, this`toasts, this`uploads, this`fetchRequests
      ensures file.None? ==> (isUploading == old(isUploading) && fileInput == file && toasts == old(toasts)
                              && uploads == old(uploads) && fetchRequests == old(fetchRequests))
      ensures file.Some? && !AcceptedImport(file.value) ==>
        && isUploading == old(isUploading) && fileInput == file && uploads == old(uploads)
        && toasts == old(toasts) + [ErrorToast("Please upload an Excel file (.xlsx, .xls)")]
        && fetchRequests == old(fetchRequests)
      ensures file.Some? && AcceptedImport(file.value) ==>
        && !isUploading && !ImportDisabled() && fileInput == None && uploads == old(uploads) + [file.value]
        && toasts == old(toasts) + [UploadToast(response)]
        && fetchRequests == old(fetchRequests) + (if response.Uploaded? then 1 else 0)
    {
      fileInput := file;
      if file.None? {
        return;
      }
      if !AcceptedImport(file.value) {
        toasts := toasts + [ErrorToast("Please upload an Excel file (.xlsx, .xls)")];
        return;
      }
      isUploading := true;
      uploads := uploads + [file.value];
      toasts := toasts + [UploadToast(response)];
      if response.Uploaded? {
        fetchRequests := fetchRequests + 1;
      }
      isUploading := false;
      fileInput := None;
    }

    /** The Import button is disabled while an upload runs. */
    predicate ImportDisabled()
      reads this
      ensures ImportDisabled() <==> isUploading
    {
      isUploading
    }
  }
}
