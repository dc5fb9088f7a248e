/** The badge lookup of src/app/admin/courses/page.tsx. */
module AdminCoursesPage {
  import opened Badges

  /** `getStatusBadge`: green for an active course, yellow for every other status ("Draft" included). */
  function StatusBadge(status: string): (badge: string)
    ensures badge == GreenBadge <==> status == "Active"
    ensures badge == GreenBadge || badge == YellowBadge
  {
    if status == "Active" then GreenBadge else YellowBadge
  }
}
