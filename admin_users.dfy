/** The badge lookups of src/app/admin/users/page.tsx. */
module AdminUsersPage {
  import opened Badges

  /** `getStatusBadge`: green for an active account, red for every other status. */
  function StatusBadge(status: string): (badge: string)
    ensures badge == GreenBadge <==> status == "Active"
    ensures badge == GreenBadge || badge == RedBadge
  {
    if status == "Active" then GreenBadge else RedBadge
  }

  /** The `colors` object of `getRoleBadge`. */
  const RoleColors: map<string, string> :=
    map["Admin" := PurpleBadge, "Instructor" := BlueBadge, "Student" := GrayBadge]

  /** `getRoleBadge`: one colour per known role, and the gray default for any other. */
  function RoleBadge(role: string): (badge: string)
    ensures role == "Admin" ==> badge == PurpleBadge
    ensures role == "Instructor" ==> badge == BlueBadge
    ensures role != "Admin" && role != "Instructor" ==> badge == GrayBadge
  {
    LookupOr(RoleColors, role, GrayBadge)
  }
}
