/** The application's route table: which page each top-level path shows, which of
    them sit behind the PrivateRoute guard, and where everything else is sent. */
module AppRoutes {
  import opened Wrappers
  import opened PrivateRoute
  import AuthState

  datatype Page =
    | LoginPage | RegisterPage | DashboardLayout
    | EntrepreneurDashboard | InvestorDashboard | EntrepreneurProfile | InvestorProfile
    | InvestorsPage | EntrepreneursPage | MessagesPage | NotificationsPage
    | DocumentsPage | SettingsPage | HelpPage | DealsPage | ChatPage

  /** One segment of a child route's path: a literal, or a `:name` parameter. */
  datatype Pattern = Lit(text: string) | Param(name: string)

  /** A route nested in a layout route: the index route, or one with a relative path. */
  datatype Child = Index(page: Page) | Nested(pattern: seq<Pattern>, page: Page)

  /** What a top-level route puts on screen. */
  datatype Element =
    | Public(page: Page)                        // rendered as is
    | Gated(layout: Page, role: Option<string>)  // wrapped in PrivateRoute with this `role`
    | RedirectTo(target: string)                // `<Navigate to=… replace />`

  datatype Route = Route(element: Element, children: seq<Child>)

  /** Top-level routes keyed by their one path segment, the `/` route and the `*` route. */
  datatype Table = Table(named: map<string, Route>, root: Element, fallback: Element)

  const Layout := Gated(DashboardLayout, None)

  const DashboardChildren := [Nested([Lit("entrepreneur")], EntrepreneurDashboard),
                               Nested([Lit("investor")], InvestorDashboard)]
  const ProfileChildren := [Nested([Lit("entrepreneur"), Param("id")], EntrepreneurProfile),
                             Nested([Lit("investor"), Param("id")], InvestorProfile)]
  const ChatChildren := [Index(ChatPage), Nested([Param("userId")], ChatPage)]

  /** The routes of the application, in the order they are declared. */
  function App(): Table
  {
    Table(
      map[
        "login" := Route(Public(LoginPage), []),
        "register" := Route(Public(RegisterPage), []),
        "dashboard" := Route(Layout, DashboardChildren),
        "profile" := Route(Layout, ProfileChildren),
        "investors" := Route(Layout, [Index(InvestorsPage)]),
        "entrepreneurs" := Route(Layout, [Index(EntrepreneursPage)]),
        "messages" := Route(Layout, [Index(MessagesPage)]),
        "notifications" := Route(Layout, [Index(NotificationsPage)]),
        "documents" := Route(Layout, [Index(DocumentsPage)]),
        "settings" := Route(Layout, [Index(SettingsPage)]),
        "help" := Route(Layout, [Index(HelpPage)]),
        "deals" := Route(Layout, [Index(DealsPage)]),
        "chat" := Route(Layout, ChatChildren)
      ],
      RedirectTo("/login"),
      RedirectTo("/login"))
  }

  /** Every full path the table declares, parent and child joined, written out apart
      from the table. */
  const Paths: seq<seq<Pattern>> := [
    [Lit("login")], [Lit("register")],
    [Lit("dashboard")], [Lit("dashboard"), Lit("entrepreneur")], [Lit("dashboard"), Lit("investor")],
    [Lit("profile")], [Lit("profile"), Lit("entrepreneur"), Param("id")],
    [Lit("profile"), Lit("investor"), Param("id")],
    [Lit("investors")], [Lit("entrepreneurs")], [Lit("messages")], [Lit("notifications")],
    [Lit("documents")], [Lit("settings")], [Lit("help")], [Lit("deals")],
    [Lit("chat")], [Lit("chat"), Param("userId")]
  ]

  const ProtectedNames: set<string> :=
    {"dashboard", "profile", "investors", "entrepreneurs", "messages", "notifications",
     "documents", "settings", "help", "deals", "chat"}

  // ---------------------------------------------------------------- matching

  /** The non-empty segments of `path` between slashes, `cur` being the segment read so far. */
  function SplitFrom(path: string, cur: string): (segs: seq<string>)
    requires '/' !in cur
    ensures forall i :: 0 <= i < |segs| ==> segs[i] != "" && '/' !in segs[i]
  {
    if path == [] then (if cur == "" then [] else [cur])
    else if path[0] == '/' then (if cur == "" then [] else [cur]) + SplitFrom(path[1..], "")
    else SplitFrom(path[1..], cur + [path[0]])
  }

  /** A URL path as segments: leading, trailing and repeated slashes do not count. */
  function Split(path: string): (segs: seq<string>)
    ensures forall i :: 0 <= i < |segs| ==> segs[i] != "" && '/' !in segs[i]
  {
    SplitFrom(path, "")
  }

  /** Segment by segment, a literal matches itself and a parameter matches anything. */
  predicate PatternMatches(pattern: seq<Pattern>, segs: seq<string>)
  {
    if pattern == [] then segs == []
    else segs != [] && (pattern[0].Param? || pattern[0].text == segs[0]) &&
         PatternMatches(pattern[1..], segs[1..])
  }

  /** The page of the first child whose path is exactly `rest`. */
  function MatchChild(children: seq<Child>, rest: seq<string>): Option<Page>
  {
    if children == [] then None
    else match children[0]
      case Index(p) => if rest == [] then Some(p) else MatchChild(children[1..], rest)
      case Nested(pat, p) => if PatternMatches(pat, rest) then Some(p) else MatchChild(children[1..], rest)
  }

  /** The top-level element matched, and the child page rendered in its outlet. */
  datatype Match = Match(element: Element, outlet: Option<Page>)

  /** A layout route matches its own path alone, or followed by one of its children's. */
  function Resolve(t: Table, segs: seq<string>): (m: Match)
    ensures m.outlet.Some? ==> segs != [] && segs[0] in t.named && m.element == t.named[segs[0]].element
    ensures segs == [] ==> m.element == t.root
  {
    if segs == [] then Match(t.root, None)
    else if segs[0] in t.named then
      var r := t.named[segs[0]];
      var child := MatchChild(r.children, segs[1..]);
      if child.Some? then Match(r.element, child)
      else if |segs| == 1 then Match(r.element, None)
      else Match(t.fallback, None)
    else Match(t.fallback, None)
  }

  datatype Screen = Render(page: Page, outlet: Option<Page>) | Redirect(target: string)

  /** What the router shows for `segs`, passing gated routes through the guard. */
  function Navigate(t: Table, segs: seq<string>, isAuthenticated: bool, userRole: Option<string>): (r: Screen)
    ensures Resolve(t, segs).element.Gated? && !isAuthenticated ==> r == Redirect("/login")
    ensures r == Redirect("/") ==>
              (isAuthenticated && Resolve(t, segs).element.Gated?) || Resolve(t, segs).element == RedirectTo("/")
  {
    var m := Resolve(t, segs);
    match m.element
    case Public(p) => Render(p, m.outlet)
    case RedirectTo(target) => Redirect(target)
    case Gated(layout, role) =>
      match Decide(isAuthenticated, userRole, role)
      case RedirectLogin => Redirect("/login")
      case RedirectRoot => Redirect("/")
      case RenderChild => Render(layout, m.outlet)
  }

  /** What the application shows at `path` for the session `s`. */
  function Show(s: AuthState.Session, path: string): Screen
  {
    Navigate(App(), Split(path), AuthState.IsAuthenticated(s), AuthState.UserRole(s))
  }

  // ---------------------------------------------------------------- properties

  lemma {:induction false} SplitFromSegment(name: string, cur: string)
    requires '/' !in cur && '/' !in name
    ensures SplitFrom(name, cur) == if cur + name == "" then [] else [cur + name]
  {
    if name != [] {
      assert name[0] in name && name[0] != '/';
      assert '/' !in cur + [name[0]];
      assert cur + name == (cur + [name[0]]) + name[1..];
      SplitFromSegment(name[1..], cur + [name[0]]);
      assert SplitFrom(name, cur) == SplitFrom(name[1..], cur + [name[0]]);
      assert |cur + name| > 0;
    } else {
      assert cur + name == cur;
    }
  }

  /** `/name` is the one segment `name`. */
  lemma SplitTopLevel(name: string)
    requires name != "" && '/' !in name
    ensures Split("/" + name) == [name]
  {
    assert ("/" + name)[1..] == name;
    SplitFromSegment(name, "");
    assert "" + name == name;
  }

  /** The path `/s0/s1/…` for the segments `segs`. */
  function Join(segs: seq<string>): string
  {
    if segs == [] then "" else "/" + segs[0] + Join(segs[1..])
  }

  /** Reading slash-free text only extends the segment being read. */
  lemma {:induction false} SplitFromPrefix(a: string, rest: string, cur: string)
    requires '/' !in a && '/' !in cur
    ensures SplitFrom(a + rest, cur) == SplitFrom(rest, cur + a)
  {
    if a == [] {
      assert a + rest == rest && cur + a == cur;
    } else {
      assert a[0] in a;
      assert (a + rest)[0] == a[0] && (a + rest)[1..] == a[1..] + rest;
      assert cur + a == (cur + [a[0]]) + a[1..];
      SplitFromPrefix(a[1..], rest, cur + [a[0]]);
    }
  }

  lemma {:induction false} SplitFromJoin(segs: seq<string>, cur: string)
    requires forall i :: 0 <= i < |segs| ==> segs[i] != "" && '/' !in segs[i]
    requires '/' !in cur
    ensures SplitFrom(Join(segs), cur) == (if cur == "" then [] else [cur]) + segs
  {
    if segs != [] {
      var tail := Join(segs[1..]);
      assert Join(segs) == "/" + (segs[0] + tail);
      assert ("/" + (segs[0] + tail))[1..] == segs[0] + tail;
      SplitFromPrefix(segs[0], tail, "");
      assert "" + segs[0] == segs[0];
      SplitFromJoin(segs[1..], segs[0]);
      assert [segs[0]] + segs[1..] == segs;
    }
  }

  /** Splitting the path written for non-empty, slash-free segments gives them back, in order. */
  lemma SplitJoin(segs: seq<string>)
    requires forall i :: 0 <= i < |segs| ==> segs[i] != "" && '/' !in segs[i]
    ensures Split(Join(segs)) == segs
  {
    SplitFromJoin(segs, "");
  }

  /** `/login` and `/register` show their pages to everyone, without the guard. */
  lemma AuthPagesArePublic(isAuthenticated: bool, userRole: Option<string>)
    ensures Resolve(App(), ["login"]) == Match(Public(LoginPage), None)
    ensures Resolve(App(), ["register"]) == Match(Public(RegisterPage), None)
    ensures Navigate(App(), Split("/login"), isAuthenticated, userRole) == Render(LoginPage, None)
    ensures Navigate(App(), Split("/register"), isAuthenticated, userRole) == Render(RegisterPage, None)
  {
    SplitTopLevel("login");
    SplitTopLevel("register");
  }

  /** The named top-level routes are the two public ones and the protected ones;
      every protected one is guarded, and no guard is given a role. */
  lemma ProtectedRoutesAreGated()
    ensures App().named.Keys == ProtectedNames + {"login", "register"}
    ensures forall name :: name in ProtectedNames ==> App().named[name].element == Gated(DashboardLayout, None)
    ensures forall name :: name in App().named && App().named[name].element.Gated? ==> App().named[name].element.role == None
  {
    NamedKeys();
    NamedProtectedAreGated();
    NamedGatedHaveNoRole();
  }

  /** The names of the top-level routes. */
  lemma NamedKeys()
    ensures App().named.Keys == ProtectedNames + {"login", "register"}
  {
  }

  /** Every protected name is wrapped in the guard with no role. */
  lemma NamedProtectedAreGated()
    ensures forall name :: name in ProtectedNames ==> App().named[name].element == Gated(DashboardLayout, None)
  {
  }

  /** No guarded route asks for a role. */
  lemma NamedGatedHaveNoRole()
    ensures forall name :: name in App().named && App().named[name].element.Gated? ==> App().named[name].element.role == None
  {
  }

  /** The `*` route catches exactly `/` and the paths that no declared path matches,
      under a named route or not, and sends them to `/login`. */
  lemma UnmatchedRedirectsToLogin(segs: seq<string>)
    ensures Resolve(App(), segs).element == RedirectTo("/login") <==>
              segs == [] || forall i :: 0 <= i < |Paths| ==> !PatternMatches(Paths[i], segs)
    ensures Resolve(App(), segs).element == RedirectTo("/login") ==> Resolve(App(), segs).outlet == None
  {
    ProtectedRoutesAreGated();
    if segs != [] {
      if Resolve(App(), segs).element == RedirectTo("/login") {
        forall i | 0 <= i < |Paths| ensures !PatternMatches(Paths[i], segs) {
          if PatternMatches(Paths[i], segs) {
            DeclaredIsClaimed(i, segs);
          }
        }
      } else {
        ClaimedIsDeclared(segs);
      }
    }
  }

  /** A path that matches a declared path is claimed by its route, not by `*`. */
  lemma DeclaredIsClaimed(i: nat, segs: seq<string>)
    requires i < |Paths| && PatternMatches(Paths[i], segs)
    ensures Resolve(App(), segs).element != RedirectTo("/login")
  {
    var p := Paths[i];
    assert segs != [] && segs[0] == p[0].text;
    var rest := segs[1..];
    var cs := App().named[segs[0]].children;
    if |p| == 1 {
      assert rest == [];
    } else if i == 3 || i == 6 {
      assert PatternMatches(ChildPattern(cs[0]), rest);
      MatchChildSome(cs, rest);
    } else {
      assert i == 4 || i == 7 || i == 17;
      assert PatternMatches(ChildPattern(cs[1]), rest);
      MatchChildSome(cs, rest);
    }
  }

  /** A path claimed by a named route matches one of the declared paths. */
  lemma ClaimedIsDeclared(segs: seq<string>)
    requires Resolve(App(), segs).element != RedirectTo("/login")
    ensures exists i :: 0 <= i < |Paths| && PatternMatches(Paths[i], segs)
  {
    if |segs| == 1 {
      ClaimedTopLevel(segs[0]);
      assert [segs[0]] == segs;
    } else {
      ClaimedByChild(segs);
      ClaimedChild(segs[0], segs[1..]);
      assert [segs[0]] + segs[1..] == segs;
    }
  }

  /** A named route alone is one of the declared one-segment paths. */
  lemma ClaimedTopLevel(n: string)
    requires n in App().named
    ensures exists i :: 0 <= i < |Paths| && PatternMatches(Paths[i], [n])
  {
    var i :=
      if n == "login" then 0 else if n == "register" then 1 else if n == "dashboard" then 2
      else if n == "profile" then 5 else if n == "investors" then 8 else if n == "entrepreneurs" then 9
      else if n == "messages" then 10 else if n == "notifications" then 11 else if n == "documents" then 12
      else if n == "settings" then 13 else if n == "help" then 14 else if n == "deals" then 15 else 16;
    assert Paths[i] == [Lit(n)];
    assert PatternMatches([Lit(n)][1..], [n][1..]);
  }

  /** Past its first segment, a path is claimed only through a child of its named route. */
  lemma ClaimedByChild(segs: seq<string>)
    requires |segs| > 1 && Resolve(App(), segs).element != RedirectTo("/login")
    ensures segs[0] in App().named && MatchChild(App().named[segs[0]].children, segs[1..]).Some?
  {
  }

  /** A child claim under a named route is one of the declared two- or three-segment paths. */
  lemma ClaimedChild(n: string, rest: seq<string>)
    requires n in App().named && rest != [] && MatchChild(App().named[n].children, rest).Some?
    ensures exists i :: 0 <= i < |Paths| && PatternMatches(Paths[i], [n] + rest)
  {
    LayoutChildren();
    OnlyLayoutsHaveChildren(n, rest);
    assert ([n] + rest)[1..] == rest;
    if n == "dashboard" {
      ClaimedUnderDashboard([n] + rest);
    } else if n == "profile" {
      ClaimedUnderProfile([n] + rest);
    } else {
      ClaimedUnderChat([n] + rest);
    }
  }

  /** The child lists of the three routes that have nested paths. */
  lemma LayoutChildren()
    ensures App().named["dashboard"].children == DashboardChildren
    ensures App().named["profile"].children == ProfileChildren
    ensures App().named["chat"].children == ChatChildren
  {
  }

  /** Only `/dashboard`, `/profile` and `/chat` have children that take further segments. */
  lemma OnlyLayoutsHaveChildren(n: string, rest: seq<string>)
    requires n in App().named && rest != [] && MatchChild(App().named[n].children, rest).Some?
    ensures n in {"dashboard", "profile", "chat"}
  {
  }

  /** The paths claimed by a child of `/dashboard` are declared. */
  lemma ClaimedUnderDashboard(segs: seq<string>)
    requires segs != [] && segs[0] == "dashboard" && MatchChild(DashboardChildren, segs[1..]).Some?
    ensures exists i :: 0 <= i < |Paths| && PatternMatches(Paths[i], segs)
  {
    MatchChildSome(DashboardChildren, segs[1..]);
    var j :| 0 <= j < 2 && PatternMatches(ChildPattern(DashboardChildren[j]), segs[1..]);
    if j == 0 {
      assert Paths[3][1..] == ChildPattern(DashboardChildren[0]);
      assert PatternMatches(Paths[3], segs);
    } else {
      assert Paths[4][1..] == ChildPattern(DashboardChildren[1]);
      assert PatternMatches(Paths[4], segs);
    }
  }

  /** The paths claimed by a child of `/profile` are declared. */
  lemma ClaimedUnderProfile(segs: seq<string>)
    requires segs != [] && segs[0] == "profile" && MatchChild(ProfileChildren, segs[1..]).Some?
    ensures exists i :: 0 <= i < |Paths| && PatternMatches(Paths[i], segs)
  {
    var entrepreneur, investor := [Lit("entrepreneur"), Param("id")], [Lit("investor"), Param("id")];
    assert ChildPattern(ProfileChildren[0]) == entrepreneur && ChildPattern(ProfileChildren[1]) == investor;
    MatchChildSome(ProfileChildren, segs[1..]);
    if PatternMatches(entrepreneur, segs[1..]) {
      assert Paths[6] == [Lit("profile")] + entrepreneur && Paths[6][1..] == entrepreneur;
      assert PatternMatches(Paths[6], segs);
    } else {
      assert PatternMatches(investor, segs[1..]);
      assert Paths[7] == [Lit("profile")] + investor && Paths[7][1..] == investor;
      assert PatternMatches(Paths[7], segs);
    }
  }

  /** The paths claimed by a child of `/chat` are declared. */
  lemma ClaimedUnderChat(segs: seq<string>)
    requires segs != [] && segs[0] == "chat" && MatchChild(ChatChildren, segs[1..]).Some?
    ensures exists i :: 0 <= i < |Paths| && PatternMatches(Paths[i], segs)
  {
    MatchChildSome(ChatChildren, segs[1..]);
    var j :| 0 <= j < 2 && PatternMatches(ChildPattern(ChatChildren[j]), segs[1..]);
    if j == 0 {
      assert Paths[16][1..] == ChildPattern(ChatChildren[0]);
      assert PatternMatches(Paths[16], segs);
    } else {
      assert Paths[17][1..] == ChildPattern(ChatChildren[1]);
      assert PatternMatches(Paths[17], segs);
    }
  }

  /** The relative path a child matches: none for the index route. */
  function ChildPattern(c: Child): seq<Pattern>
  {
    if c.Index? then [] else c.pattern
  }

  /** Some child claims `rest` exactly when one child's path matches it. */
  lemma {:induction false} MatchChildSome(cs: seq<Child>, rest: seq<string>)
    ensures MatchChild(cs, rest).Some? <==> exists i :: 0 <= i < |cs| && PatternMatches(ChildPattern(cs[i]), rest)
  {
    if cs != [] {
      MatchChildSome(cs[1..], rest);
      assert forall i :: 0 < i < |cs| ==> cs[i] == cs[1..][i - 1];
    }
  }

  /** `/chat` shows the chat page both alone and with a user id after it. */
  lemma ChatAcceptsIndexAndUser(userId: string)
    requires userId != ""
    ensures Resolve(App(), ["chat"]) == Match(Layout, Some(ChatPage))
    ensures Resolve(App(), ["chat", userId]) == Match(Layout, Some(ChatPage))
  {
    var chat := App().named["chat"];
    assert ["chat", userId][1..] == [userId];
    assert chat.children[1..] == [Nested([Param("userId")], ChatPage)];
    assert PatternMatches([Param("userId")][1..], [userId][1..]);
    assert PatternMatches([Param("userId")], [userId]);
    assert MatchChild(chat.children[1..], [userId]) == Some(ChatPage);
  }

  /** `/a/b`, for two non-empty, slash-free segments, splits into `a` and `b`. */
  lemma SplitTwoSegments(a: string, b: string)
    requires a != "" && '/' !in a && b != "" && '/' !in b
    ensures Split("/" + a + "/" + b) == [a, b]
  {
    var segs := [a, b];
    assert segs[1..] == [b] && [b][1..] == [];
    assert Join([b]) == "/" + b + "";
    assert Join(segs) == "/" + a + ("/" + b + "");
    assert "/" + a + ("/" + b + "") == "/" + a + "/" + b;
    SplitJoin(segs);
  }

  lemma DashboardInvestorResolves()
    ensures Resolve(App(), ["dashboard", "investor"]) == Match(Layout, Some(InvestorDashboard))
  {
    LayoutChildren();
    NamedProtectedAreGated();
    assert ["dashboard", "investor"][1..] == ["investor"];
    assert DashboardChildren[1..] == [Nested([Lit("investor")], InvestorDashboard)];
    assert !PatternMatches([Lit("entrepreneur")], ["investor"]);
    assert PatternMatches([Lit("investor")], ["investor"]) by {
      assert [Lit("investor")][1..] == [] && ["investor"][1..] == [];
    }
    assert MatchChild(DashboardChildren, ["investor"]) == Some(InvestorDashboard);
  }

  lemma ProfileWithoutIdResolves()
    ensures Resolve(App(), ["profile", "investor"]) == Match(RedirectTo("/login"), None)
  {
    LayoutChildren();
    assert ["profile", "investor"][1..] == ["investor"];
    assert ProfileChildren[1..] == [Nested([Lit("investor"), Param("id")], InvestorProfile)];
    assert !PatternMatches([Lit("entrepreneur"), Param("id")], ["investor"]);
    assert !PatternMatches([Lit("investor"), Param("id")], ["investor"]) by {
      assert ["investor"][1..] == [];
    }
    assert MatchChild(ProfileChildren, ["investor"]) == None;
  }

  /** `/dashboard/investor` shows the investor dashboard inside the layout to a signed-in session. */
  lemma DashboardInvestorPath(s: AuthState.Session)
    requires AuthState.IsAuthenticated(s)
    ensures Show(s, "/dashboard/investor") == Render(DashboardLayout, Some(InvestorDashboard))
  {
    SplitTwoSegments("dashboard", "investor");
    assert "/" + "dashboard" + "/" + "investor" == "/dashboard/investor";
    DashboardInvestorResolves();
  }

  /** `/profile/investor` has no `:id`: no child claims it, and `*` sends it to `/login`
      in every session. */
  lemma ProfileWithoutIdRedirects(s: AuthState.Session)
    ensures Show(s, "/profile/investor") == Redirect("/login")
  {
    SplitTwoSegments("profile", "investor");
    assert "/" + "profile" + "/" + "investor" == "/profile/investor";
    ProfileWithoutIdResolves();
  }

  /** `/chat/<userId>` shows the chat page inside the layout to a signed-in session. */
  lemma ChatUserPath(s: AuthState.Session, userId: string)
    requires AuthState.IsAuthenticated(s) && userId != "" && '/' !in userId
    ensures Show(s, "/chat/" + userId) == Render(DashboardLayout, Some(ChatPage))
  {
    SplitTwoSegments("chat", userId);
    assert "/" + "chat" + "/" + userId == "/chat/" + userId;
    ChatAcceptsIndexAndUser(userId);
  }

  /** Every public route is the login or the register page with no children. */
  ghost predicate PublicOnlyAuthPages(t: Table)
  {
    (forall name :: name in t.named && t.named[name].element.Public? ==>
       t.named[name].element.page in {LoginPage, RegisterPage} && t.named[name].children == []) &&
    (forall name :: name in t.named && t.named[name].element.RedirectTo? ==>
       t.named[name].element.target == "/login") &&
    t.root == RedirectTo("/login") && t.fallback == RedirectTo("/login")
  }

  /** Over such a table, a signed-out visitor sees the login page, the register page,
      or a redirect to `/login`, whatever the path and the required role. */
  lemma SignedOutSeesOnlyAuthPages(t: Table, segs: seq<string>, userRole: Option<string>)
    requires PublicOnlyAuthPages(t)
    ensures Navigate(t, segs, false, userRole) in {Render(LoginPage, None), Render(RegisterPage, None), Redirect("/login")}
  {
    if segs != [] && segs[0] in t.named {
      assert MatchChild([], segs[1..]) == None;
    }
  }

  lemma AppPublicOnlyAuthPages()
    ensures PublicOnlyAuthPages(App())
  {
    NamedKeys();
    NamedProtectedAreGated();
  }

  /** A signed-in user is never sent to `/` by the guard: no route asks for a role. */
  lemma SignedInNeverSentToRoot(segs: seq<string>, userRole: Option<string>)
    ensures Navigate(App(), segs, true, userRole) != Redirect("/")
  {
    ProtectedRoutesAreGated();
  }

  /** A session without a user reaches only the login and register pages. */
  lemma SignedOutSessionIsLockedOut(s: AuthState.Session, path: string)
    requires !AuthState.IsAuthenticated(s)
    ensures Show(s, path) in {Render(LoginPage, None), Render(RegisterPage, None), Redirect("/login")}
  {
    AppPublicOnlyAuthPages();
    SignedOutSeesOnlyAuthPages(App(), Split(path), AuthState.UserRole(s));
  }

  /** After logout, every path leads to the login or register page. */
  lemma LogoutLocksEveryRoute(s: AuthState.Session, path: string)
    ensures Show(AuthState.Logout(s), path) in {Render(LoginPage, None), Render(RegisterPage, None), Redirect("/login")}
  {
    SignedOutSessionIsLockedOut(AuthState.Logout(s), path);
  }

  /** A signed-in session gets through the guard of every protected top-level path. */
  lemma SignedInReachesProtected(s: AuthState.Session, name: string)
    requires AuthState.IsAuthenticated(s) && name in ProtectedNames
    ensures Show(s, "/" + name).Render? && Show(s, "/" + name).page == DashboardLayout
  {
    ProtectedTopLevel(name);
  }

  /** The guard does not look at `isLoading`: before the mount effect has restored a
      stored session, every protected path redirects to `/login`, whatever storage holds. */
  lemma GuardRedirectsBeforeRestore(store: map<string, string>, name: string)
    requires name in ProtectedNames
    ensures Show(AuthState.Start(store), "/" + name) == Redirect("/login")
  {
    ProtectedTopLevel(name);
  }

  /** `/name`, for a protected name, is one segment and resolves to the guarded layout. */
  lemma ProtectedTopLevel(name: string)
    requires name in ProtectedNames
    ensures Split("/" + name) == [name] && Resolve(App(), [name]).element == Layout
  {
    ProtectedNameIsSegment(name);
    SplitTopLevel(name);
    ProtectedResolves(name);
  }

  /** Every protected name is a single non-empty path segment. */
  lemma ProtectedNameIsSegment(name: string)
    requires name in ProtectedNames
    ensures name != "" && '/' !in name
  {
  }

  /** A protected top-level path, with no further segments, resolves to the guarded layout. */
  lemma ProtectedResolves(name: string)
    requires name in ProtectedNames
    ensures Resolve(App(), [name]).element == Layout
  {
    NamedProtectedAreGated();
  }
}
