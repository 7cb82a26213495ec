/**
 * The navigators of src/navigation/index.tsx: the `HeaderLeft` decision, the
 * main stack's screen table and the drawer's area table.
 *
 * Each navigator is given shared `screenOptions` and a per-screen `options`
 * object; a field set in a screen's own options takes precedence over the
 * shared one. A field neither sets is `None` here: its value is the
 * navigation library's default, which this code does not define.
 */
module Navigation {
  import opened Wrappers
  import opened Routes

  /** The two left header controls: ☰ dispatches `toggleDrawer`, the back arrow calls `goBack`. */
  datatype LeftControl = DrawerToggle | GoBack

  /** The bell button in the checklist's header; pressing it only logs. */
  datatype RightControl = NotificationButton

  /** The `headerLeft: () => <HeaderLeft />` render function installed by the stack's screenOptions. */
  datatype HeaderLeftComponent = HeaderLeftComponent

  /** What `HeaderLeft` renders for the route whose header it is in. */
  function HeaderLeft(routeName: string): (c: LeftControl)
    ensures c == DrawerToggle <==> ParseStackRoute(routeName) == Some(Home)
  {
    if routeName == "Home" then DrawerToggle else GoBack
  }

  /** The option fields this code sets, on either navigator. */
  datatype ScreenOptions = ScreenOptions(
    title: Option<string>,
    headerShown: Option<bool>,
    swipeEnabled: Option<bool>,
    headerLeft: Option<HeaderLeftComponent>,
    headerRight: Option<RightControl>)

  const NoOptions := ScreenOptions(None, None, None, None, None)

  /** One `<X.Screen name=… options=…/>` registration. */
  datatype ScreenEntry = ScreenEntry(name: string, options: ScreenOptions)

  /** A screen's own options laid over the navigator's shared screenOptions. */
  function Override(shared: ScreenOptions, own: ScreenOptions): ScreenOptions {
    ScreenOptions(
      if own.title.Some? then own.title else shared.title,
      if own.headerShown.Some? then own.headerShown else shared.headerShown,
      if own.swipeEnabled.Some? then own.swipeEnabled else shared.swipeEnabled,
      if own.headerLeft.Some? then own.headerLeft else shared.headerLeft,
      if own.headerRight.Some? then own.headerRight else shared.headerRight)
  }

  const MainStackScreenOptions := NoOptions.(headerLeft := Some(HeaderLeftComponent))

  /** The main stack's screens, in registration order. */
  const MainStackScreens: seq<ScreenEntry> := [
    ScreenEntry("Home", NoOptions.(title := Some("My App"))),
    ScreenEntry("FeatureOne", NoOptions.(title := Some("Video Upload"))),
    ScreenEntry("FeatureTwo", NoOptions.(title := Some("Weather"))),
    ScreenEntry("FeatureThree", NoOptions.(title := Some("Checklist"), headerRight := Some(NotificationButton)))
  ]

  const DrawerScreenOptions := NoOptions.(headerShown := Some(false))

  /** The drawer's areas, in registration order. */
  const DrawerScreens: seq<ScreenEntry> := [
    ScreenEntry("MainStack", NoOptions.(title := Some("Home"))),
    ScreenEntry("Login", NoOptions.(headerShown := Some(true), swipeEnabled := Some(false))),
    ScreenEntry("SignUp", NoOptions.(headerShown := Some(true), swipeEnabled := Some(false)))
  ]

  function Names(entries: seq<ScreenEntry>): (r: seq<string>)
    ensures |r| == |entries|
    ensures forall i :: 0 <= i < |entries| ==> r[i] == entries[i].name
  {
    if entries == [] then [] else [entries[0].name] + Names(entries[1..])
  }

  /** The options of the first registration named `name`, if there is one. */
  function FindOptions(entries: seq<ScreenEntry>, name: string): (r: Option<ScreenOptions>)
    ensures r.Some? <==> name in Names(entries)
    ensures r.Some? ==> ScreenEntry(name, r.value) in entries
  {
    if entries == [] then None
    else if entries[0].name == name then Some(entries[0].options)
    else FindOptions(entries[1..], name)
  }

  /** The options a registered route is shown with; `None` for a name the navigator does not register. */
  function EffectiveOptions(shared: ScreenOptions, entries: seq<ScreenEntry>, name: string): (r: Option<ScreenOptions>)
    ensures r.Some? <==> name in Names(entries)
  {
    match FindOptions(entries, name)
    case None => None
    case Some(own) => Some(Override(shared, own))
  }

  /** The header a stack screen shows: left control, title and optional right control. */
  datatype Header = Header(left: Option<LeftControl>, title: Option<string>, right: Option<RightControl>)

  /** The header of the stack screen named `routeName`; `None` if the stack does not register it. */
  function StackHeader(routeName: string): (h: Option<Header>)
    ensures h.Some? <==> routeName in Names(MainStackScreens)
  {
    match EffectiveOptions(MainStackScreenOptions, MainStackScreens, routeName)
    case None => None
    case Some(o) =>
      Some(Header(
        if o.headerLeft.Some? then Some(HeaderLeft(routeName)) else None,
        o.title,
        o.headerRight))
  }

  /** The title each stack screen is registered with. */
  function Title(r: StackRoute): string {
    match r
    case Home => "My App"
    case FeatureOne => "Video Upload"
    case FeatureTwo => "Weather"
    case FeatureThree => "Checklist"
  }

  /** The left control is the drawer toggle for `Home` and back-navigation for every other stack screen. */
  lemma HeaderLeftTogglesOnlyOnHome(r: StackRoute)
    ensures HeaderLeft(StackRouteName(r)) == DrawerToggle <==> r == Home
    ensures r != Home ==> HeaderLeft(StackRouteName(r)) == GoBack
  {
  }

  /** The registered stack screens are exactly the MainStackParamList keys, each once, `Home` first. */
  lemma StackRegistrationMatchesParamList()
    ensures Names(MainStackScreens) == ["Home", "FeatureOne", "FeatureTwo", "FeatureThree"]
    ensures forall s :: s in Names(MainStackScreens) <==> s in MainStackParamList
    ensures ParseStackRoute(MainStackScreens[0].name) == Some(Home)
  {
  }

  /** The registered areas are exactly the DrawerParamList keys, each once, `MainStack` first. */
  lemma DrawerRegistrationMatchesParamList()
    ensures Names(DrawerScreens) == ["MainStack", "Login", "SignUp"]
    ensures forall s :: s in Names(DrawerScreens) <==> s in DrawerParamList
    ensures ParseDrawerRoute(DrawerScreens[0].name) == Some(MainStack)
  {
  }

  /**
   * Every stack screen gets the shared HeaderLeft, with the control it
   * decides for that screen's name, and the title of its own registration.
   */
  lemma StackHeaderOfEveryScreen(r: StackRoute)
    ensures StackHeader(StackRouteName(r)).Some?
    ensures StackHeader(StackRouteName(r)).value.left == Some(HeaderLeft(StackRouteName(r)))
    ensures StackHeader(StackRouteName(r)).value.title == Some(Title(r))
  {
    StackRegistrationMatchesParamList();
  }

  /** Only FeatureThree has a right header control. */
  lemma OnlyFeatureThreeHasHeaderRight(r: StackRoute)
    ensures StackHeader(StackRouteName(r)).Some?
    ensures StackHeader(StackRouteName(r)).value.right.Some? <==> r == FeatureThree
  {
    StackRegistrationMatchesParamList();
  }

  /**
   * The drawer hides the header by default; Login and SignUp show their own
   * header and disable the swipe gesture, MainStack keeps the defaults.
   */
  lemma AreaFlags(a: DrawerRoute)
    ensures EffectiveOptions(DrawerScreenOptions, DrawerScreens, DrawerRouteName(a)).Some?
    ensures EffectiveOptions(DrawerScreenOptions, DrawerScreens, DrawerRouteName(a)).value.headerShown
         == Some(a != MainStack)
    ensures EffectiveOptions(DrawerScreenOptions, DrawerScreens, DrawerRouteName(a)).value.swipeEnabled
         == if a == MainStack then None else Some(false)
  {
    DrawerRegistrationMatchesParamList();
  }
}
