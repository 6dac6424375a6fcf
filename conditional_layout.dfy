/**
 * The site frame (src/components/layout/conditional-layout.tsx): admin pages
 * render their content alone, every other page between the menu bar and the
 * footer.
 */
module ConditionalLayout {
  import opened Wrappers
  import opened Js

  datatype Part = MenuBar | Content | Footer

  /** The wrapper: whether it takes the full screen height, and what it holds in order. */
  datatype Frame = Frame(fullHeight: bool, parts: seq<Part>)

  /** `pathname?.startsWith('/admin')`, with a missing pathname counting as not admin */
  predicate IsAdminPage(pathname: Option<string>) {
    pathname.Some? && StartsWith(pathname.value, "/admin")
  }

  function Layout(pathname: Option<string>): (r: Frame)
    ensures IsAdminPage(pathname) ==> r == Frame(true, [Content])
    ensures !IsAdminPage(pathname) ==> r == Frame(false, [MenuBar, Content, Footer])
  {
    if IsAdminPage(pathname) then Frame(true, [Content]) else Frame(false, [MenuBar, Content, Footer])
  }

  /** Every frame shows the page's content exactly once; the menu bar and footer appear exactly when the page is not admin. */
  lemma ContentAlwaysOnce(pathname: Option<string>)
    ensures multiset(Layout(pathname).parts)[Content] == 1
    ensures MenuBar in Layout(pathname).parts <==> !IsAdminPage(pathname)
    ensures Footer in Layout(pathname).parts <==> !IsAdminPage(pathname)
  {
  }

  /** The test is a plain prefix test: any path extending an admin path is admin, '/administrator' included. */
  lemma AdminPrefixClosed(path: string, more: string)
    requires IsAdminPage(Some(path))
    ensures IsAdminPage(Some(path + more))
  {
    assert (path + more)[..6] == path[..6];
  }

  lemma AdministratorIsAdmin()
    ensures IsAdminPage(Some("/administrator"))
    ensures !IsAdminPage(Some("/")) && !IsAdminPage(None)
  {
    assert "/administrator"[..6] == "/admin";
  }
}
