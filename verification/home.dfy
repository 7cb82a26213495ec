/**
 * The feature cards of src/screens/HomeScreen.tsx. Pressing a card asks the
 * stack navigator to open the route named in the card's `screen` field; the
 * field is a plain string, cast to a MainStackParamList key without any check.
 */
module Home {
  import opened Wrappers
  import opened Routes

  datatype FeatureCard = FeatureCard(id: string, title: string, description: string, icon: string, screen: string)

  /** The `features` table, in display order. */
  const Features: seq<FeatureCard> := [
    FeatureCard("1", "Upload Video", "Upload your best video", "star", "FeatureOne"),
    FeatureCard("2", "Weather", "Check current weather conditions", "cloud", "FeatureTwo"),
    FeatureCard("3", "Checklist", "Create and manage your tasks", "checkmark-circle", "FeatureThree"),
    FeatureCard("4", "Widgets", "Create your widget", "settings", "")
  ]

  /** A `navigation.navigate(name)` call, with the name as passed. */
  datatype NavigateRequest = Navigate(name: string)

  /** The press handler of a card: navigate to whatever its `screen` field says. */
  function CardPress(card: FeatureCard): (req: NavigateRequest)
    ensures req == Navigate(card.screen)
    ensures ParseStackRoute(req.name).Some? <==> card.screen in MainStackParamList
  {
    Navigate(card.screen)
  }

  /** The stack screen a card's press reaches, if its target is a registered screen name. */
  function CardTarget(card: FeatureCard): Option<StackRoute> {
    ParseStackRoute(CardPress(card).name)
  }

  /** Four cards whose ids, the list keys, are "1" to "4" and pairwise distinct. */
  lemma FeatureIdsDistinct()
    ensures |Features| == 4
    ensures forall i :: 0 <= i < |Features| ==> Features[i].id == ["1", "2", "3", "4"][i]
    ensures forall i, j :: 0 <= i < j < |Features| ==> Features[i].id != Features[j].id
  {
  }

  /** Cards 1 to 3 open FeatureOne, FeatureTwo and FeatureThree. */
  lemma FirstThreeCardsReachFeatures()
    ensures CardTarget(Features[0]) == Some(FeatureOne)
    ensures CardTarget(Features[1]) == Some(FeatureTwo)
    ensures CardTarget(Features[2]) == Some(FeatureThree)
  {
  }

  /**
   * The Widgets card asks for the route named "", which no navigator
   * registers: it is the one card whose target is not a stack screen.
   */
  lemma WidgetsCardTargetUnregistered()
    ensures Features[3].title == "Widgets" && CardPress(Features[3]) == Navigate("")
    ensures "" !in MainStackParamList && "" !in DrawerParamList && "" !in RootStackParamList
    ensures forall i :: 0 <= i < |Features| ==> (CardTarget(Features[i]).None? <==> i == 3)
  {
  }
}
