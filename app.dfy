/**
 * The app's screen state machine and list bookkeeping (App.tsx). One
 * object holds the state of `App` together with the state of the child
 * screen currently mounted (the maker wizard, the oven's reveal modal, the
 * friend search). As in React, a child screen's state starts afresh each
 * time the app switches to that screen.
 */
module App {
  import opened Types
  import opened JsText
  import opened AppData

  // ---------------------------------------------------------------------
  // Screens

  /** The screens from which `goBack` returns to HOME (App.tsx:510). */
  const InnerScreens: seq<AppScreen> := [Maker, MyOven, SentCookies, FriendOven, MyPage]

  /** The screens that show the bottom navigation bar (App.tsx:872). */
  const NavScreens: seq<AppScreen> := [Home, MyOven, SentCookies, FriendOven]

  /** Where `goBack` leads from `s` (App.tsx:509-515). */
  function BackTarget(s: AppScreen): (t: AppScreen)
    ensures t == Home <==> s in {Maker, MyOven, SentCookies, FriendOven, MyPage}
    ensures t != Home ==> t == Landing
  {
    if Includes(InnerScreens, s) then Home else Landing
  }

  /** Whether the bottom navigation bar is shown on `s` (App.tsx:872). */
  function ShowsBottomNav(s: AppScreen): (shown: bool)
    ensures shown <==> s in {Home, MyOven, SentCookies, FriendOven}
  {
    Includes(NavScreens, s)
  }

  /** The screens reached only after signing up. */
  predicate SignedIn(s: AppScreen)
  {
    s in {AuthSuccess, Home, Maker, MyOven, SentCookies, FriendOven, MyPage}
  }

  /** The buttons (and the login timer) whose only effect is to change screen. */
  datatype Control =
    | StartWithGoogle     // LANDING (App.tsx:547)
    | LoginComplete       // LOGIN, when the two-second timer fires (App.tsx:89-94, 838)
    | AuthInfoBack        // AUTH_INFO (App.tsx:561)
    | SendCode            // AUTH_INFO (App.tsx:585)
    | SuccessMakeCookie   // AUTH_SUCCESS (App.tsx:626)
    | SuccessGoHome       // AUTH_SUCCESS (App.tsx:627)
    | DashboardMaker | DashboardOven | DashboardSent | DashboardFriend  // HOME (App.tsx:714-740)
    | MenuMyPage | MenuLogout  // HOME's side menu (App.tsx:652, 659)
    | MyPageLogout        // MY_PAGE (App.tsx:820)
    | NavHome | NavMaker | NavOven  // bottom navigation bar (App.tsx:874-886)

  /** Whether control `c` can be pressed on `s`, with the side menu open or not. */
  predicate Shown(s: AppScreen, menuOpen: bool, c: Control)
    ensures Shown(s, menuOpen, c) ==> s != AuthCode
    ensures Shown(s, menuOpen, c) && s == Home && menuOpen ==> c in {MenuMyPage, MenuLogout}
    ensures Shown(s, menuOpen, c) && s == Home && !menuOpen ==>
      c in {DashboardMaker, DashboardOven, DashboardSent, DashboardFriend, NavHome, NavMaker, NavOven}
  {
    match c
    case StartWithGoogle => s == Landing
    case LoginComplete => s == Login
    case AuthInfoBack | SendCode => s == AuthInfo
    case SuccessMakeCookie | SuccessGoHome => s == AuthSuccess
    case DashboardMaker | DashboardOven | DashboardSent | DashboardFriend => s == Home && !menuOpen
    case MenuMyPage | MenuLogout => s == Home && menuOpen
    case MyPageLogout => s == MyPage
    case NavHome | NavMaker | NavOven => ShowsBottomNav(s) && !menuOpen
  }

  /** The screen control `c` switches to. */
  function Target(c: Control): (t: AppScreen)
    ensures t != AuthSuccess
    ensures t == Landing <==> c in {AuthInfoBack, MenuLogout, MyPageLogout}
  {
    match c
    case StartWithGoogle => Login
    case LoginComplete => AuthInfo
    case AuthInfoBack => Landing
    case SendCode => AuthCode
    case SuccessMakeCookie => Maker
    case SuccessGoHome => Home
    case DashboardMaker => Maker
    case DashboardOven => MyOven
    case DashboardSent => SentCookies
    case DashboardFriend => FriendOven
    case MenuMyPage => MyPage
    case MenuLogout => Landing
    case MyPageLogout => Landing
    case NavHome => Home
    case NavMaker => Maker
    case NavOven => MyOven
  }

  /**
   * The sign-up flow is a straight line LANDING, LOGIN, AUTH_INFO, AUTH_CODE,
   * AUTH_SUCCESS: on each of its screens the controls either move one step
   * on or return to LANDING, and AUTH_CODE is left only by verifying.
   */
  lemma AuthFlowIsLinear(s: AppScreen, menuOpen: bool, c: Control)
    requires Shown(s, menuOpen, c)
    ensures s == Landing ==> Target(c) == Login
    ensures s == Login ==> Target(c) == AuthInfo
    ensures s == AuthInfo ==> Target(c) == AuthCode || Target(c) == Landing
    ensures s != AuthCode
  {
  }

  /**
   * No control leads from outside the signed-in area into it: the area is
   * entered only by verifying on AUTH_CODE, which lands on AUTH_SUCCESS.
   */
  lemma NoControlEntersSignedIn(s: AppScreen, menuOpen: bool, c: Control)
    requires Shown(s, menuOpen, c) && !SignedIn(s)
    ensures !SignedIn(Target(c))
  {
  }

  /** From every screen with the navigation bar, going back leads HOME. */
  lemma NavScreensGoBackHome(s: AppScreen)
    requires ShowsBottomNav(s) && s != Home
    ensures BackTarget(s) == Home
  {
  }

  // ---------------------------------------------------------------------
  // State

  /** The state of a mounted maker wizard (App.tsx:112-118). */
  datatype MakerForm = MakerForm(
    step: int,
    cookieConfig: CookieConfig,
    letterContent: string,
    recipientName: string,
    toCampus: Campus,
    toClass: string,
    toMMId: string)

  /** The wizard as it is mounted: step 1, the initial cookie, an empty form. */
  const FreshMaker := MakerForm(1, InitialConfig, "", "", Seoul, "20반", "")

  /** The state of a mounted friend search (App.tsx:422-423). */
  datatype FriendSearch = FriendSearch(searchTerm: string, searchResult: Option<FriendOvenView>)

  const FreshSearch := FriendSearch("", None)

  /**
   * A snapshot of every state variable of the app and of its mounted child
   * screens; `selectedCookie` is the oven's reveal modal (App.tsx:309).
   */
  datatype AppState = AppState(
    screen: AppScreen,
    currentUser: User,
    isMenuOpen: bool,
    myOven: seq<Letter>,
    sentCookies: seq<Letter>,
    isChristmas: bool,
    maker: MakerForm,
    selectedCookie: Option<Letter>,
    search: FriendSearch)

  /**
   * The effect of `setScreen(target)`: a real change of screen mounts the
   * target afresh, so the maker, oven and search screens start from their
   * initial state; staying on the same screen keeps everything.
   */
  function Switch(st: AppState, target: AppScreen): (r: AppState)
    ensures r.screen == target
    ensures r.myOven == st.myOven && r.sentCookies == st.sentCookies
    ensures r.currentUser == st.currentUser && r.isChristmas == st.isChristmas
    ensures r.isMenuOpen == st.isMenuOpen
    ensures target != st.screen && target == Maker ==> r.maker == FreshMaker
    ensures target != st.screen && target == MyOven ==> r.selectedCookie == None
    ensures target != st.screen && target == FriendOven ==> r.search == FreshSearch
  {
    if target == st.screen then st
    else
      var moved := st.(screen := target);
      match target
      case Maker => moved.(maker := FreshMaker)
      case MyOven => moved.(selectedCookie := None)
      case FriendOven => moved.(search := FreshSearch)
      case _ => moved
  }

  /** The effect of pressing control `c`; the side-menu entries also close the menu. */
  function AfterPress(st: AppState, c: Control): AppState
  {
    var closed := if c == MenuMyPage || c == MenuLogout then st.(isMenuOpen := false) else st;
    Switch(closed, Target(c))
  }

  /** The effect of `handleSendCookie(l)` (App.tsx:517-522). */
  function AfterSendCookie(st: AppState, l: Letter): (r: AppState)
    ensures r.sentCookies == st.sentCookies + [l] && r.myOven == st.myOven + [l]
    ensures r.screen == Home
  {
    Switch(st.(sentCookies := st.sentCookies + [l], myOven := st.myOven + [l]), Home)
  }

  /**
   * What a wizard's form keeps: it is on step 1, 2 or 3, its cookie comes
   * from the palette, its letter fits the text area, and step 3 is only
   * reached with a non-blank letter.
   */
  predicate FormInvariant(f: MakerForm)
  {
    && 1 <= f.step <= 3
    && InPalette(f.cookieConfig)
    && Utf16Length(f.letterContent) <= MaxContent
    && (f.step == 3 ==> Trim(f.letterContent) != "")
  }

  /**
   * What holds in every reachable state: the wizard's form invariant; both
   * lists hold the same well-formed letters; the user is the mock user and
   * has verified before entering the signed-in area; the menu is open only
   * on HOME; a cookie is revealed only on Christmas and only one from the
   * oven; a search result is the canned one for a non-empty name.
   */
  predicate Invariant(st: AppState)
  {
    && FormInvariant(st.maker)
    && st.myOven == st.sentCookies
    && (forall i :: 0 <= i < |st.sentCookies| ==> WellFormedLetter(st.sentCookies[i]))
    && st.currentUser == MockUser.(isVerified := st.currentUser.isVerified)
    && (SignedIn(st.screen) ==> st.currentUser.isVerified)
    && (st.isMenuOpen ==> st.screen == Home)
    && (st.screen == MyOven && st.selectedCookie.Some? ==>
          st.isChristmas && st.selectedCookie.value in st.myOven)
    && (st.search.searchResult.Some? ==>
          var v := st.search.searchResult.value;
          v.name != "" && v == MockFriendOven(v.name))
  }

  /** The state the app starts in (App.tsx:498-507, 112-118, 309, 422-423). */
  const Initial := AppState(Landing, MockUser, false, [], [], false, FreshMaker, None, FreshSearch)

  lemma InitialIsValid()
    ensures Invariant(Initial)
  {
  }

  /**
   * Changing screen keeps the invariant when the target is not in the
   * signed-in area or the user has verified, and the menu is closed or the
   * target is HOME.
   */
  lemma SwitchKeepsInvariant(st: AppState, t: AppScreen)
    requires Invariant(st)
    requires SignedIn(t) ==> st.currentUser.isVerified
    requires st.isMenuOpen ==> t == Home
    ensures Invariant(Switch(st, t))
  {
    var r := Switch(st, t);
    assert r.maker == FreshMaker || r.maker == st.maker;
    assert r.search == FreshSearch || r.search == st.search;
  }

  /** Every control keeps the invariant, and the side menu ends closed. */
  lemma PressKeepsInvariant(st: AppState, c: Control)
    requires Invariant(st) && Shown(st.screen, st.isMenuOpen, c)
    ensures Invariant(AfterPress(st, c))
    ensures !AfterPress(st, c).isMenuOpen
  {
    if !SignedIn(st.screen) {
      NoControlEntersSignedIn(st.screen, st.isMenuOpen, c);
    }
    var closed := if c == MenuMyPage || c == MenuLogout then st.(isMenuOpen := false) else st;
    assert Invariant(closed);
    SwitchKeepsInvariant(closed, Target(c));
  }

  /**
   * Sending keeps the invariant: both lists grow by the same well-formed
   * letter, so they stay equal and the earlier letters are untouched.
   */
  lemma SendKeepsInvariant(st: AppState, l: Letter)
    requires Invariant(st) && st.screen == Maker && WellFormedLetter(l)
    ensures Invariant(AfterSendCookie(st, l))
    ensures forall i :: 0 <= i < |st.sentCookies| ==>
      AfterSendCookie(st, l).sentCookies[i] == st.sentCookies[i]
      && AfterSendCookie(st, l).myOven[i] == st.myOven[i]
  {
    var r := AfterSendCookie(st, l);
    forall i | 0 <= i < |r.sentCookies| ensures WellFormedLetter(r.sentCookies[i]) {
      if i < |st.sentCookies| {
        assert r.sentCookies[i] == st.sentCookies[i];
      } else {
        assert r.sentCookies[i] == l;
      }
    }
  }

  /** Revealing a letter of the oven on Christmas keeps the invariant. */
  lemma RevealKeepsInvariant(st: AppState, cookie: Letter)
    requires Invariant(st) && st.screen == MyOven && st.isChristmas && cookie in st.myOven
    ensures Invariant(st.(selectedCookie := Some(cookie)))
  {
  }

  // ---------------------------------------------------------------------
  // The app object

  class App {
    var screen: AppScreen
    var currentUser: User
    var isMenuOpen: bool
    var myOven: seq<Letter>
    var sentCookies: seq<Letter>
    var isChristmas: bool
    var maker: MakerForm
    var selectedCookie: Option<Letter>
    var search: FriendSearch

    ghost function State(): AppState
      reads this
    {
      AppState(screen, currentUser, isMenuOpen, myOven, sentCookies, isChristmas,
               maker, selectedCookie, search)
    }

    ghost predicate Valid()
      reads this
    {
      Invariant(State())
    }

    constructor ()
      ensures Valid() && State() == Initial
    {
      screen, currentUser, isMenuOpen := Landing, MockUser, false;
      myOven, sentCookies, isChristmas := [], [], false;
      maker, selectedCookie, search := FreshMaker, None, FreshSearch;
    }

    /** `setScreen(target)`, with the target screen mounted afresh on a real change. */
    method SetScreen(target: AppScreen)
      modifies this
      ensures State() == Switch(old(State()), target)
    {
      if target == screen {
        return;
      }
      screen := target;
      match target
      case Maker => maker := FreshMaker;
      case MyOven => selectedCookie := None;
      case FriendOven => search := FreshSearch;
      case _ =>
    }

    /** A button (or the login timer) that only changes screen. */
    method Press(c: Control)
      requires Valid() && Shown(screen, isMenuOpen, c)
      modifies this
      ensures Valid() && State() == AfterPress(old(State()), c)
      ensures screen == Target(c) && !isMenuOpen
      ensures myOven == old(myOven) && sentCookies == old(sentCookies)
      ensures currentUser == old(currentUser) && isChristmas == old(isChristmas)
    {
      ghost var st := State();
      PressKeepsInvariant(st, c);
      if c == MenuMyPage || c == MenuLogout {
        isMenuOpen := false;
      }
      assert State() == if c == MenuMyPage || c == MenuLogout then st.(isMenuOpen := false) else st;
      SetScreen(Target(c));
    }

    /** `goBack` (App.tsx:509-515). */
    method GoBack()
      requires Valid() && !isMenuOpen
      modifies this
      ensures Valid() && State() == Switch(old(State()), BackTarget(old(screen)))
      ensures screen == Home <==> old(screen) in {Maker, MyOven, SentCookies, FriendOven, MyPage}
    {
      SetScreen(BackTarget(screen));
    }

    /** The verify button on AUTH_CODE (App.tsx:605-608). */
    method Verify()
      requires Valid() && screen == AuthCode
      modifies this
      ensures Valid()
      ensures currentUser == old(currentUser).(isVerified := true)
      ensures State() == Switch(old(State()).(currentUser := currentUser), AuthSuccess)
    {
      currentUser := currentUser.(isVerified := true);
      SetScreen(AuthSuccess);
    }

    /** The menu button in HOME's header (App.tsx:683). */
    method OpenMenu()
      requires Valid() && screen == Home
      modifies this
      ensures Valid() && State() == old(State()).(isMenuOpen := true)
    {
      isMenuOpen := true;
    }

    /** The menu's close button or its backdrop (App.tsx:640, 649). */
    method CloseMenu()
      requires Valid() && screen == Home && isMenuOpen
      modifies this
      ensures Valid() && State() == old(State()).(isMenuOpen := false)
    {
      isMenuOpen := false;
    }

    /** The debug switch on HOME that simulates Christmas (App.tsx:702-707). */
    method ToggleChristmas()
      requires Valid() && screen == Home && !isMenuOpen
      modifies this
      ensures Valid() && State() == old(State()).(isChristmas := !old(isChristmas))
    {
      isChristmas := !isChristmas;
    }

    /** `handleSendCookie` (App.tsx:517-522); the alert is left out. */
    method HandleSendCookie(l: Letter)
      requires Valid() && screen == Maker && WellFormedLetter(l)
      modifies this
      ensures Valid() && State() == AfterSendCookie(old(State()), l)
    {
      SendKeepsInvariant(State(), l);
      sentCookies := sentCookies + [l];
      myOven := myOven + [l];
      SetScreen(Home);
    }

    // --- MakerScreen -----------------------------------------------------

    /** The shuffle button (App.tsx:120-128, 165). */
    method Shuffle(d: Draws)
      requires Valid() && screen == Maker && maker.step == 1 && ValidDraws(d)
      modifies this
      ensures Valid() && State() == old(State()).(maker := old(maker).(cookieConfig := RandomConfig(d)))
    {
      maker := maker.(cookieConfig := RandomConfig(d));
    }

    /** A skin colour swatch (App.tsx:177-184). */
    method PickSkin(color: string)
      requires Valid() && screen == Maker && maker.step == 1 && color in CookieColors
      modifies this
      ensures Valid()
      ensures State() == old(State()).(maker := old(maker).(cookieConfig :=
                                                             old(maker.cookieConfig).(skinColor := color)))
    {
      maker := maker.(cookieConfig := maker.cookieConfig.(skinColor := color));
    }

    /** A shirt colour swatch (App.tsx:187-196). */
    method PickShirt(color: string)
      requires Valid() && screen == Maker && maker.step == 1 && color in ShirtColors
      modifies this
      ensures Valid()
      ensures State() == old(State()).(maker := old(maker).(cookieConfig :=
                                                             old(maker.cookieConfig).(shirtColor := color)))
    {
      maker := maker.(cookieConfig := maker.cookieConfig.(shirtColor := color));
    }

    /** One of the three eye buttons (App.tsx:199-203). */
    method PickEyes(t: int)
      requires Valid() && screen == Maker && maker.step == 1 && 0 <= t <= 2
      modifies this
      ensures Valid()
      ensures State() == old(State()).(maker := old(maker).(cookieConfig :=
                                                             old(maker.cookieConfig).(eyeType := t)))
    {
      maker := maker.(cookieConfig := maker.cookieConfig.(eyeType := t));
    }

    /** One of the four accessory buttons (App.tsx:207-211). */
    method PickAccessory(t: int)
      requires Valid() && screen == Maker && maker.step == 1 && 0 <= t <= 3
      modifies this
      ensures Valid()
      ensures State() == old(State()).(maker := old(maker).(cookieConfig :=
                                                             old(maker.cookieConfig).(accessory := t)))
    {
      maker := maker.(cookieConfig := maker.cookieConfig.(accessory := t));
    }

    /** "Next: write the letter" on step 1 (App.tsx:216). */
    method ToLetterStep()
      requires Valid() && screen == Maker && maker.step == 1
      modifies this
      ensures Valid() && State() == old(State()).(maker := old(maker).(step := 2))
    {
      maker := maker.(step := 2);
    }

    /** Typing in the letter's text area, which accepts at most 300 units (App.tsx:229-235). */
    method EditContent(text: string)
      requires Valid() && screen == Maker && maker.step == 2 && Utf16Length(text) <= MaxContent
      modifies this
      ensures Valid() && State() == old(State()).(maker := old(maker).(letterContent := text))
    {
      maker := maker.(letterContent := text);
    }

    /**
     * "Next: recipient" on step 2 (App.tsx:242); the button is disabled,
     * and pressing it does nothing, while the letter is blank.
     */
    method ToRecipientStep()
      requires Valid() && screen == Maker && maker.step == 2
      modifies this
      ensures Valid()
      ensures State() == if Trim(old(maker.letterContent)) == "" then old(State())
                         else old(State()).(maker := old(maker).(step := 3))
    {
      if Trim(maker.letterContent) != "" {
        maker := maker.(step := 3);
      }
    }

    /** The back arrow in the wizard's header (App.tsx:150, 848). */
    method MakerBack()
      requires Valid() && screen == Maker
      modifies this
      ensures Valid()
      ensures State() == if old(maker.step) == 1 then Switch(old(State()), Home)
                         else old(State()).(maker := old(maker).(step := old(maker.step) - 1))
    {
      if maker.step == 1 {
        SetScreen(Home);
      } else {
        maker := maker.(step := maker.step - 1);
      }
    }

    /** Typing the recipient's name on step 3 (App.tsx:271-275). */
    method EditRecipient(name: string)
      requires Valid() && screen == Maker && maker.step == 3
      modifies this
      ensures Valid() && State() == old(State()).(maker := old(maker).(recipientName := name))
    {
      maker := maker.(recipientName := name);
    }

    /** Choosing the recipient's campus on step 3 (App.tsx:257-259). */
    method SelectCampus(c: Campus)
      requires Valid() && screen == Maker && maker.step == 3
      modifies this
      ensures Valid() && State() == old(State()).(maker := old(maker).(toCampus := c))
    {
      maker := maker.(toCampus := c);
    }

    /** Choosing the recipient's class on step 3 (App.tsx:263-267). */
    method SelectClass(classLabel: string)
      requires Valid() && screen == Maker && maker.step == 3
      modifies this
      ensures Valid() && State() == old(State()).(maker := old(maker).(toClass := classLabel))
    {
      maker := maker.(toClass := classLabel);
    }

    /** Typing the optional Mattermost id on step 3 (App.tsx:279-283). */
    method EditMMId(id: string)
      requires Valid() && screen == Maker && maker.step == 3
      modifies this
      ensures Valid() && State() == old(State()).(maker := old(maker).(toMMId := id))
    {
      maker := maker.(toMMId := id);
    }

    /**
     * The send button on step 3 (App.tsx:130-144, 297): disabled while the
     * recipient's name is empty; otherwise the letter built from the form is
     * handed to `handleSendCookie`. `id` and `timestamp` stand for the two
     * clock readings.
     */
    method Send(id: string, timestamp: int)
      requires Valid() && screen == Maker && maker.step == 3
      modifies this
      ensures Valid()
      ensures old(maker.recipientName) == "" ==> State() == old(State())
      ensures old(maker.recipientName) != "" ==>
        State() == AfterSendCookie(old(State()),
          MakeLetter(id, timestamp, Recipient(old(maker.recipientName), old(maker.toCampus), old(maker.toClass)),
                     old(currentUser), old(maker.letterContent), old(maker.cookieConfig)))
    {
      if maker.recipientName != "" {
        var to := Recipient(maker.recipientName, maker.toCampus, maker.toClass);
        var l := MakeLetter(id, timestamp, to, currentUser, maker.letterContent, maker.cookieConfig);
        SentLetterWellFormed(id, timestamp, to, currentUser, maker.letterContent, maker.cookieConfig);
        HandleSendCookie(l);
      }
    }

    // --- MyOvenScreen ----------------------------------------------------

    /**
     * Clicking a cookie in the oven (App.tsx:311-323): before Christmas it
     * only shows an alert and changes nothing; on Christmas it opens the
     * reveal modal on that letter.
     */
    method CookieClick(cookie: Letter)
      requires Valid() && screen == MyOven && cookie in myOven
      modifies this
      ensures Valid()
      ensures State() == if old(isChristmas) then old(State()).(selectedCookie := Some(cookie))
                         else old(State())
    {
      ghost var st := State();
      if isChristmas {
        RevealKeepsInvariant(st, cookie);
        selectedCookie := Some(cookie);
        assert State() == st.(selectedCookie := Some(cookie));
      }
    }

    /** The reveal modal's close button (App.tsx:400). */
    method CloseReveal()
      requires Valid() && screen == MyOven && selectedCookie.Some?
      modifies this
      ensures Valid() && State() == old(State()).(selectedCookie := None)
    {
      selectedCookie := None;
    }

    // --- FriendOvenScreen ------------------------------------------------

    /** Typing in the search box (App.tsx:449-455). */
    method EditSearchTerm(term: string)
      requires Valid() && screen == FriendOven
      modifies this
      ensures Valid() && State() == old(State()).(search := old(search).(searchTerm := term))
    {
      search := search.(searchTerm := term);
    }

    /** `handleSearch` (App.tsx:425-436): an empty term changes nothing. */
    method Search()
      requires Valid() && screen == FriendOven
      modifies this
      ensures Valid()
      ensures State() == if old(search.searchTerm) == "" then old(State())
                         else old(State()).(search := old(search).(searchResult :=
                                                                    Some(MockFriendOven(old(search.searchTerm)))))
    {
      if search.searchTerm == "" {
        return;
      }
      search := search.(searchResult := Some(MockFriendOven(search.searchTerm)));
    }
  }

  // ---------------------------------------------------------------------
  // Walkthroughs

  /** Signing up leads through the whole auth flow to a verified user on HOME. */
  method SignUpWalkthrough() returns (trail: seq<AppScreen>, verified: bool)
    ensures trail == [Landing, Login, AuthInfo, AuthCode, AuthSuccess, Home]
    ensures verified
  {
    var app := new App();
    var landing := app.screen;
    app.Press(StartWithGoogle);
    var login := app.screen;
    app.Press(LoginComplete);
    var info := app.screen;
    app.Press(SendCode);
    var code := app.screen;
    app.Verify();
    var success := app.screen;
    app.Press(SuccessGoHome);
    trail := [landing, login, info, code, success, app.screen];
    verified := app.currentUser.isVerified;
  }

  /** A fresh session signed up and verified, on AUTH_SUCCESS with empty lists. */
  method SignUp() returns (app: App)
    ensures fresh(app) && app.Valid()
    ensures app.screen == AuthSuccess && app.currentUser.isVerified
    ensures app.myOven == [] && !app.isMenuOpen && !app.isChristmas
  {
    app := new App();
    app.Press(StartWithGoogle);
    app.Press(LoginComplete);
    app.Press(SendCode);
    app.Verify();
  }

  /**
   * From AUTH_SUCCESS, a hat-wearing cookie with a letter that starts with a
   * visible character reaches the recipient step.
   */
  method WriteGreeting(app: App, text: string)
    requires app.Valid() && app.screen == AuthSuccess
    requires text != [] && !IsJsWhitespace(text[0]) && Utf16Length(text) <= MaxContent
    modifies app
    ensures app.Valid() && app.screen == Maker && app.maker.step == 3
    ensures app.maker.letterContent == text && app.maker.cookieConfig.accessory == 1
    ensures app.myOven == old(app.myOven) && app.isChristmas == old(app.isChristmas)
    ensures !app.isMenuOpen
  {
    app.Press(SuccessMakeCookie);
    app.PickAccessory(1);
    app.ToLetterStep();
    app.EditContent(text);
    TrimEmptyIffBlank(text);
    app.ToRecipientStep();
  }

  /**
   * Signing up and baking one cookie: HOME shows, and both lists hold
   * exactly the letter, addressed to `recipient` and carrying `text`.
   */
  method BakeCookie(recipient: string, text: string) returns (app: App)
    requires recipient != ""
    requires text != [] && !IsJsWhitespace(text[0]) && Utf16Length(text) <= MaxContent
    ensures fresh(app) && app.Valid()
    ensures app.screen == Home && !app.isMenuOpen && !app.isChristmas
    ensures |app.sentCookies| == 1 && app.sentCookies == app.myOven
    ensures app.sentCookies[0].toName == recipient && app.sentCookies[0].content == text
    ensures app.sentCookies[0].fromName == MockUser.name && !app.sentCookies[0].isRead
    ensures app.sentCookies[0].isLong <==> Utf16Length(text) > LongThreshold
  {
    app := SignUp();
    WriteGreeting(app, text);
    app.EditRecipient(recipient);
    app.Send("1", 1);
  }

  /**
   * From HOME, opening the oven (by the dashboard card or the navigation
   * bar) and tapping `cookie`: the letter is shown only on Christmas.
   */
  method OpenOvenAndTap(app: App, via: Control, cookie: Letter) returns (shown: Option<Letter>)
    requires app.Valid() && app.screen == Home && !app.isMenuOpen && cookie in app.myOven
    requires via == DashboardOven || via == NavOven
    modifies app
    ensures app.Valid() && app.screen == MyOven && !app.isMenuOpen
    ensures app.myOven == old(app.myOven) && app.isChristmas == old(app.isChristmas)
    ensures shown == if app.isChristmas then Some(cookie) else None
  {
    app.Press(via);
    app.CookieClick(cookie);
    shown := app.selectedCookie;
  }

  /**
   * Opening the oven after baking: the letter stays locked before Christmas
   * and is revealed on Christmas.
   */
  method BakeAndRevealWalkthrough(recipient: string, text: string)
    returns (sent: seq<Letter>, beforeXmas: Option<Letter>, onXmas: Option<Letter>)
    requires recipient != ""
    requires text != [] && !IsJsWhitespace(text[0]) && Utf16Length(text) <= MaxContent
    ensures |sent| == 1 && sent[0].toName == recipient && sent[0].content == text
    ensures beforeXmas == None && onXmas == Some(sent[0])
  {
    var app := BakeCookie(recipient, text);
    sent := app.myOven;
    beforeXmas := OpenOvenAndTap(app, DashboardOven, sent[0]);
    app.Press(NavHome);
    app.ToggleChristmas();
    onXmas := OpenOvenAndTap(app, NavOven, sent[0]);
  }
}
