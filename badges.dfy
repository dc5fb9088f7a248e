/** The badge class strings of the admin and learner tables, and the lookup they use. */
module Badges {

  const GreenBadge := "bg-green-100 text-green-800"
  const RedBadge := "bg-red-100 text-red-800"
  const BlueBadge := "bg-blue-100 text-blue-800"
  const PurpleBadge := "bg-purple-100 text-purple-800"
  const YellowBadge := "bg-yellow-100 text-yellow-800"
  const GrayBadge := "bg-gray-100 text-gray-800"

  /**
   * `table[key] || fallback` on an object literal: a missing key, or one whose
   * value is the falsy "", gives the fallback.
   */
  function LookupOr(table: map<string, string>, key: string, fallback: string): (r: string)
    ensures key in table && table[key] != "" ==> r == table[key]
    ensures key !in table || table[key] == "" ==> r == fallback
    ensures r == fallback || r in table.Values
  {
    if key in table && table[key] != "" then table[key] else fallback
  }
}
