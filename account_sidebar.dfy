/**
 * The account side panel: the signed-in user's avatar, name and e-mail,
 * the highlighted account tab, and the events its links send, in order.
 */
module AccountSidebar {
  import opened Wrappers
  import Initials

  /** What the panel tells the page, in order. */
  datatype SidebarEvent = NavigateAccount(tab: string) | Logout | Close

  /** The avatar letters: the shared corrected initials of the full name ("" when absent). */
  function AvatarInitials(fullName: string): (r: string)
    ensures 1 <= |r| <= 2
    ensures ' ' !in r
  {
    Initials.UserInitialsNoBlank(fullName);
    Initials.UserInitials(fullName)
  }

  /** The name shown: the full name, or "User" when it is absent or empty. */
  function UserName(fullName: Option<string>): (r: string)
    ensures r != ""
    ensures fullName.Some? && fullName.value != "" ==> r == fullName.value
  {
    if fullName.Some? && fullName.value != "" then fullName.value else "User"
  }

  /** The e-mail shown: the e-mail, or "" when it is absent. */
  function UserEmail(email: Option<string>): (r: string)
    ensures email.Some? ==> r == email.value
    ensures email.None? ==> r == ""
  {
    email.GetOr("")
  }

  /**
   * The highlighted tab: on the account page, the 'tab' query parameter
   * when it is present and non-empty, else "details"; elsewhere "details".
   */
  function ActiveTab(onAccountPage: bool, tabParam: Option<string>): (r: string)
    ensures r != ""
    ensures !onAccountPage ==> r == "details"
    ensures onAccountPage && tabParam.Some? && tabParam.value != "" ==> r == tabParam.value
    ensures (tabParam.None? || tabParam.value == "") ==> r == "details"
  {
    if onAccountPage then
      if tabParam.Some? && tabParam.value != "" then tabParam.value else "details"
    else "details"
  }

  /** An account link names its tab, then closes the panel. */
  function NavigateToAccount(tab: string): (r: seq<SidebarEvent>)
    ensures |r| == 2 && r[0] == NavigateAccount(tab) && r[1] == Close
  {
    [NavigateAccount(tab)] + [Close]
  }

  /** Logging out asks the page to log out, then closes the panel. */
  function HandleLogout(): (r: seq<SidebarEvent>)
    ensures |r| == 2 && r[0] == Logout && r[1] == Close
  {
    [Logout] + [Close]
  }
}
