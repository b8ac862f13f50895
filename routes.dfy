/**
  The route helpers of the web client (frontend/src/app/utils.ts): which
  paths need a signed-in user, which show the application layout, and the
  page title of each path.
*/
module Routes {
  import opened Common

  const Landing := "/"
  const Login := "/auth/login"
  const Register := "/auth/register"
  const LandingAlias := "/landing"
  const ChatPrefix := "/chat/"
  const ChatTitle := "Trò chuyện"
  const DefaultTitle := "Love Chat"

  /** `APP_ROUTES.CHAT_WITH_USER` (frontend/src/app/utils.ts:14): the chat page with one user. */
  function ChatWithUser(userId: string): (p: string)
    ensures StartsWith(p, ChatPrefix) && p[|ChatPrefix|..] == userId
  {
    ChatPrefix + userId
  }

  /** The same route for a numeric id, printed in decimal. */
  function ChatWithUserId(userId: nat): (p: string)
    ensures StartsWith(p, ChatPrefix) && p[|ChatPrefix|..] == NatToString(userId)
  {
    ChatWithUser(NatToString(userId))
  }

  /** Different users have different chat pages, and the page's tail reads back as the id. */
  lemma ChatWithUserIdInjective(a: nat, b: nat)
    ensures DigitsValue(ChatWithUserId(a)[|ChatPrefix|..]) == a
    ensures ChatWithUserId(a) == ChatWithUserId(b) ==> a == b
  {
    NatToStringRoundTrip(a);
    if ChatWithUserId(a) == ChatWithUserId(b) {
      assert NatToString(a) == ChatWithUserId(a)[|ChatPrefix|..];
      NatToStringInjective(a, b);
    }
  }

  /**
    `requiresAuth` (frontend/src/app/utils.ts:26-36): every path but the
    four public ones needs a signed-in user.
  */
  function RequiresAuth(pathname: string): (r: bool)
    ensures !r <==> pathname == "/" || pathname == "/auth/login" || pathname == "/auth/register" || pathname == "/landing"
  {
    pathname !in [Landing, Login, Register, LandingAlias]
  }

  /**
    `shouldShowLayout` (frontend/src/app/utils.ts:41-57): never on the
    sign-in and sign-up pages, never for a visitor, and otherwise always.
  */
  function ShouldShowLayout(pathname: string, isAuthenticated: bool): (r: bool)
    ensures pathname == "/auth/login" || pathname == "/auth/register" ==> !r
    ensures !isAuthenticated ==> !r
    ensures r <==> isAuthenticated && pathname != "/auth/login" && pathname != "/auth/register"
  {
    if pathname in [Login, Register] then false
    else if pathname in [Landing, LandingAlias] && !isAuthenticated then false
    else isAuthenticated
  }

  /** The title table of `getPageTitle`. */
  const Titles: map<string, string> := map[
    "/" := "Trang chủ",
    "/chat" := "Trò chuyện",
    "/profile" := "Hồ sơ",
    "/caro" := "Game Caro",
    "/farm" := "Trang trại",
    "/wallet" := "Ví tiền",
    "/auth/login" := "Đăng nhập",
    "/auth/register" := "Đăng ký"
  ]

  /**
    `getPageTitle` (frontend/src/app/utils.ts:62-79): the chat title for
    any path under "/chat/", the table's title for a listed path, and the
    application's name for anything else.
  */
  function PageTitle(pathname: string): (t: string)
    ensures StartsWith(pathname, ChatPrefix) ==> t == ChatTitle
    ensures !StartsWith(pathname, ChatPrefix) && pathname in Titles ==> t == Titles[pathname]
    ensures !StartsWith(pathname, ChatPrefix) && pathname !in Titles ==> t == DefaultTitle
    ensures t != ""
  {
    if StartsWith(pathname, ChatPrefix) then ChatTitle
    else if pathname in Titles && Titles[pathname] != "" then Titles[pathname]
    else DefaultTitle
  }

  /**
    A chat page with a user is titled like the chat list, needs a signed-in
    user, and shows the layout exactly when the user is signed in.
  */
  lemma ChatWithUserPage(userId: string, isAuthenticated: bool)
    ensures PageTitle(ChatWithUser(userId)) == ChatTitle
    ensures RequiresAuth(ChatWithUser(userId))
    ensures ShouldShowLayout(ChatWithUser(userId), isAuthenticated) == isAuthenticated
  {
    var p := ChatWithUser(userId);
    assert p[..|ChatPrefix|] == ChatPrefix;
    assert p != "/" && p != "/auth/login" && p != "/auth/register" && p != "/landing" by {
      assert |p| >= 6 && p[1] == 'c';
    }
  }

  /**
    The two rules agree on the protected pages: where a signed-in user is
    needed, the layout is shown exactly to a signed-in user.
  */
  lemma ProtectedPagesShowLayout(pathname: string, isAuthenticated: bool)
    requires RequiresAuth(pathname)
    ensures ShouldShowLayout(pathname, isAuthenticated) == isAuthenticated
  {
  }
}
