/**
 * The route-name enumerations of src/navigation/types.ts. Each param list is
 * an object type whose keys are the route names of one navigator and whose
 * values are the parameters each route takes; every route here takes none
 * (`undefined`). The keys become closed datatypes, the param lists maps from
 * name to parameter type.
 */
module Routes {
  import opened Wrappers

  /** The only parameter type declared for any route: `undefined`. */
  datatype Params = Undefined

  /** `keyof RootStackParamList`: declared, but registered with no navigator. */
  datatype RootRoute = Auth | Main

  /** `keyof DrawerParamList`: the top-level areas of the drawer navigator. */
  datatype DrawerRoute = MainStack | Login | SignUp

  /** `keyof MainStackParamList`: the screens of the main stack navigator. */
  datatype StackRoute = Home | FeatureOne | FeatureTwo | FeatureThree

  const RootStackParamList: map<string, Params> := map["Auth" := Undefined, "Main" := Undefined]
  const DrawerParamList: map<string, Params> :=
    map["MainStack" := Undefined, "Login" := Undefined, "SignUp" := Undefined]
  const MainStackParamList: map<string, Params> :=
    map["Home" := Undefined, "FeatureOne" := Undefined, "FeatureTwo" := Undefined, "FeatureThree" := Undefined]

  function RootRouteName(r: RootRoute): (s: string)
    ensures s in RootStackParamList
  {
    match r
    case Auth => "Auth"
    case Main => "Main"
  }

  function DrawerRouteName(r: DrawerRoute): (s: string)
    ensures s in DrawerParamList
  {
    match r
    case MainStack => "MainStack"
    case Login => "Login"
    case SignUp => "SignUp"
  }

  function StackRouteName(r: StackRoute): (s: string)
    ensures s in MainStackParamList
  {
    match r
    case Home => "Home"
    case FeatureOne => "FeatureOne"
    case FeatureTwo => "FeatureTwo"
    case FeatureThree => "FeatureThree"
  }

  /** The root route a string names, if it names one: a key of RootStackParamList and nothing else parses. */
  function ParseRootRoute(s: string): (r: Option<RootRoute>)
    ensures r.Some? <==> s in RootStackParamList
    ensures r.Some? ==> RootRouteName(r.value) == s
  {
    if s == "Auth" then Some(Auth)
    else if s == "Main" then Some(Main)
    else None
  }

  /** The area a string names, if it names one: a key of DrawerParamList and nothing else parses. */
  function ParseDrawerRoute(s: string): (r: Option<DrawerRoute>)
    ensures r.Some? <==> s in DrawerParamList
    ensures r.Some? ==> DrawerRouteName(r.value) == s
  {
    if s == "MainStack" then Some(MainStack)
    else if s == "Login" then Some(Login)
    else if s == "SignUp" then Some(SignUp)
    else None
  }

  /** The stack screen a string names, if it names one: a key of MainStackParamList and nothing else parses. */
  function ParseStackRoute(s: string): (r: Option<StackRoute>)
    ensures r.Some? <==> s in MainStackParamList
    ensures r.Some? ==> StackRouteName(r.value) == s
  {
    if s == "Home" then Some(Home)
    else if s == "FeatureOne" then Some(FeatureOne)
    else if s == "FeatureTwo" then Some(FeatureTwo)
    else if s == "FeatureThree" then Some(FeatureThree)
    else None
  }

  /** Every root route's name parses back to that route, so Auth and Main have distinct names. */
  lemma RootRouteNameRoundTrip(r: RootRoute)
    ensures ParseRootRoute(RootRouteName(r)) == Some(r)
  {
  }

  /** Every area name parses back to its area, so no two areas share a name. */
  lemma DrawerRouteNameRoundTrip(r: DrawerRoute)
    ensures ParseDrawerRoute(DrawerRouteName(r)) == Some(r)
  {
  }

  /** Every screen name parses back to its screen, so no two screens share a name. */
  lemma StackRouteNameRoundTrip(r: StackRoute)
    ensures ParseStackRoute(StackRouteName(r)) == Some(r)
  {
  }

  /** The drawer's names are exactly MainStack, Login and SignUp. */
  lemma DrawerNamesAreExactly()
    ensures DrawerParamList.Keys == {"MainStack", "Login", "SignUp"}
    ensures forall s :: s in DrawerParamList <==> exists r: DrawerRoute :: DrawerRouteName(r) == s
  {
    forall s | s in DrawerParamList ensures exists r: DrawerRoute :: DrawerRouteName(r) == s {
      assert DrawerRouteName(ParseDrawerRoute(s).value) == s;
    }
  }

  /** The stack's names are exactly Home, FeatureOne, FeatureTwo and FeatureThree. */
  lemma StackNamesAreExactly()
    ensures MainStackParamList.Keys == {"Home", "FeatureOne", "FeatureTwo", "FeatureThree"}
    ensures forall s :: s in MainStackParamList <==> exists r: StackRoute :: StackRouteName(r) == s
  {
    forall s | s in MainStackParamList ensures exists r: StackRoute :: StackRouteName(r) == s {
      assert StackRouteName(ParseStackRoute(s).value) == s;
    }
  }

  /** No area name is a screen name, and neither navigator registers `Auth` or `Main`. */
  lemma NamespacesDisjoint()
    ensures DrawerParamList.Keys !! MainStackParamList.Keys
    ensures forall a: DrawerRoute, b: StackRoute :: DrawerRouteName(a) != StackRouteName(b)
    ensures RootStackParamList.Keys !! DrawerParamList.Keys
    ensures RootStackParamList.Keys !! MainStackParamList.Keys
  {
  }
}
