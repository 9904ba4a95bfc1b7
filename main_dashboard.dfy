/** The main dashboard screen: a practice/performance tab bar, and a selected
    scenario that replaces the tabs by the voice chat for that scenario. */
module MainDashboard {
  import opened Wrappers

  datatype ScenarioDetails = ScenarioDetails(name: string, partner: string, avatar: string)

  const COFFEE_SHOP_ID: string := "coffee-shop"
  const DINNER_DATE_ID: string := "dinner-date"
  const CASUAL_MEETUP_ID: string := "casual-meetup"

  const COFFEE_SHOP: ScenarioDetails :=
    ScenarioDetails("Coffee Shop", "Emma", "https://api.dicebear.com/7.x/avataaars/svg?seed=Emma")
  const DINNER_DATE: ScenarioDetails :=
    ScenarioDetails("Dinner Date", "Sophie", "https://api.dicebear.com/7.x/avataaars/svg?seed=Sophie")
  const CASUAL_MEETUP: ScenarioDetails :=
    ScenarioDetails("Casual Meetup", "Alex", "https://api.dicebear.com/7.x/avataaars/svg?seed=Alex")

  const PRACTICE_TAB: string := "practice"
  const PERFORMANCE_TAB: string := "performance"

  function Scenarios(): map<string, ScenarioDetails> {
    map[COFFEE_SHOP_ID := COFFEE_SHOP, DINNER_DATE_ID := DINNER_DATE, CASUAL_MEETUP_ID := CASUAL_MEETUP]
  }

  /** `getScenarioDetails`: the table entry of a known id, the coffee-shop entry otherwise. */
  function GetScenarioDetails(scenarioId: string): (d: ScenarioDetails)
    ensures scenarioId == COFFEE_SHOP_ID ==> d == COFFEE_SHOP
    ensures scenarioId == DINNER_DATE_ID ==> d == DINNER_DATE
    ensures scenarioId == CASUAL_MEETUP_ID ==> d == CASUAL_MEETUP
    ensures scenarioId !in {COFFEE_SHOP_ID, DINNER_DATE_ID, CASUAL_MEETUP_ID} ==> d == COFFEE_SHOP
  {
    var scenarios := Scenarios();
    if scenarioId in scenarios then scenarios[scenarioId] else scenarios[COFFEE_SHOP_ID]
  }

  class MainDashboard {
    var activeTab: string
    var selectedScenario: Option<string>

    constructor ()
      ensures activeTab == PRACTICE_TAB && selectedScenario.None?
    {
      activeTab, selectedScenario := PRACTICE_TAB, None;
    }

    /** The voice chat replaces the tabs while the selected id is truthy. */
    function ShowsVoiceChat(): (shown: bool)
      reads this
      ensures shown <==> selectedScenario.Some? && selectedScenario.value != ""
    {
      Truthy(selectedScenario)
    }

    /** `handleScenarioSelect`. */
    method SelectScenario(scenarioId: string)
      modifies this`selectedScenario
      ensures selectedScenario == Some(scenarioId)
      ensures scenarioId != "" ==> ShowsVoiceChat()
    {
      selectedScenario := Some(scenarioId);
    }

    /** `handleEndSession`, from the back arrow or the chat's End Session button. */
    method EndSession()
      modifies this`selectedScenario
      ensures selectedScenario.None? && !ShowsVoiceChat()
    {
      selectedScenario := None;
    }

    /** A press on one of the two tabs, shown only while no chat is. */
    method PressTab(tab: string)
      requires !ShowsVoiceChat() && tab in {PRACTICE_TAB, PERFORMANCE_TAB}
      modifies this`activeTab
      ensures activeTab == tab
    {
      activeTab := tab;
    }

    /** The name, partner and avatar the chat is shown with. */
    function ChatDetails(): (d: ScenarioDetails)
      reads this
      requires ShowsVoiceChat()
      ensures d in {COFFEE_SHOP, DINNER_DATE, CASUAL_MEETUP}
    {
      GetScenarioDetails(selectedScenario.value)
    }
  }
}
