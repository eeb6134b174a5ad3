/** The account record the users endpoint returns (the `User` type of
    src/app/admin/accounts/columns.tsx), shared by the user table and the
    two user charts. */
module UserRecord {
  import opened Wrappers

  datatype User = User(
    id: string, accountId: string, username: string, email: string, role: string, status: string,
    assetModel: Option<string>, firstAccess: Option<string>, deviceNotif: Option<string>,
    createdAt: Option<string>, updatedAt: Option<string>)
}
