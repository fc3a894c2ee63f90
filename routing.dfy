/** Which page `WastePlateApp` renders for its session flag and its `activePage` id. */
module Routing {
  /** The page components `renderPage` can return. */
  datatype Page = Faqs | Contact | Signup | Login | Dashboard | Reports | InventorySetup

  /** The page ids the navigation sets (`NavItem` ids and the login/signup switches). */
  function PageId(p: Page): string
  {
    match p
    case Faqs => "faqs"
    case Contact => "contact"
    case Signup => "signup"
    case Login => "login"
    case Dashboard => "dashboard"
    case Reports => "reports"
    case InventorySetup => "inventory"
  }

  /** Pages a logged-out visitor can be shown. */
  predicate PublicPage(p: Page)
  {
    p in {Faqs, Contact, Signup, Login}
  }

  /** Pages a logged-in user can be shown. */
  predicate MemberPage(p: Page)
  {
    p in {Dashboard, Reports, InventorySetup, Faqs, Contact}
  }

  /**
   * `renderPage`: logged out, only the public pages appear and any other id
   * falls back to Login; logged in, Login and Signup never appear and any
   * unknown id falls back to Dashboard.
   */
  function RenderPage(isLoggedIn: bool, activePage: string): (p: Page)
    ensures !isLoggedIn ==> PublicPage(p)
    ensures isLoggedIn ==> MemberPage(p)
    ensures !isLoggedIn ==> (p == Login <==> activePage !in {"faqs", "contact", "signup"})
    ensures isLoggedIn ==> (p == Dashboard <==> activePage !in {"reports", "inventory", "faqs", "contact"})
  {
    if !isLoggedIn then
      if activePage == "faqs" then Faqs
      else if activePage == "contact" then Contact
      else if activePage == "signup" then Signup
      else Login
    else
      match activePage
      case "dashboard" => Dashboard
      case "reports" => Reports
      case "inventory" => InventorySetup
      case "faqs" => Faqs
      case "contact" => Contact
      case _ => Dashboard
  }

  /** Navigating to a page's id shows exactly that page whenever the session may see it. */
  lemma RenderPageId(isLoggedIn: bool, p: Page)
    requires if isLoggedIn then MemberPage(p) else PublicPage(p)
    ensures RenderPage(isLoggedIn, PageId(p)) == p
  {
  }
}
