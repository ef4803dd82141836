/**
 * Walk-throughs that connect the router and the carousel, as App wires
 * them: the hub is mounted with the router's remembered mission, and a
 * click on the centre card calls navigateToScene.
 */
module Scenarios {
  import opened Wrappers
  import opened App
  import opened MissionHub
  import ContactBureau

  /**
   * Going to a content scene and back to the hub re-opens the carousel
   * centred on that scene, whatever the state before.
   */
  lemma ReturnToHubCentresOnMission(r: Router, c: Scene)
    requires IsContent(c)
    ensures var back := Step(Navigate(r, c), BackPressed);
      back.currentScene == Hub &&
      Missions[InitialIndex(Some(back.lastSelectedMission))] == c
  {
    InitialIndexOfContent(c);
  }

  /** A centre-card click navigates to that card's content scene. */
  lemma ClickNavigatesToCentre(r: Router, index: nat, current: nat)
    requires Valid(r) && index < MissionCount && current < MissionCount
    ensures var t := ClickTarget(index, current);
      t.Some? ==> Navigate(r, t.value).currentScene == Missions[current] &&
                  Navigate(r, t.value).lastSelectedMission == Missions[current]
  {
  }

  /** Fresh load, sync, hub, skills card, back: the hub re-opens on skills. */
  method SkillsRoundTrip() {
    var router := new SceneRouter();
    assert router.currentScene == Sync;
    var entered := router.PressEnter();
    assert !entered;  // still syncing: no enter button yet
    router.SyncTimerFires();
    entered := router.PressEnter();
    assert entered && router.currentScene == Hub;

    var hub := new Carousel(Some(router.HubInitialMission()));
    assert hub.currentIndex == 0;
    hub.NextCard();
    var target := hub.Click(1);
    assert target == Some(Skills);
    var missed := hub.Click(2);
    assert missed == None;  // a side card does nothing
    router.NavigateToScene(target.value);
    assert router.currentScene == Skills && router.lastSelectedMission == Skills;

    var back := router.PressBack();
    assert back && router.currentScene == Hub;
    hub := new Carousel(Some(router.HubInitialMission()));
    InitialIndexOfContent(Skills);
    assert Missions[hub.currentIndex] == Skills;
  }

  /**
   * A rejected send shows the error banner and keeps the input; the button
   * is enabled again at once, and the reset timer later clears the banner.
   * A retry that succeeds clears the form.
   */
  method ContactRetry() {
    var form := new ContactBureau.ContactForm();
    form.HandleChange(ContactBureau.Name, "Ezio");
    form.HandleChange(ContactBureau.Message, "Hello");
    var first := form.Submit("Mon, Oct 12, 2026, 10:00 AM");
    assert first.Some? && first.value.name == "Ezio" && first.value.message == "Hello";
    var again := form.Submit("Mon, Oct 12, 2026, 10:00 AM");
    assert again == None;  // disabled while in flight
    form.Settle(ContactBureau.Failed);
    assert form.submitStatus == ContactBureau.Error && form.SubmitEnabled();
    assert form.formData.name == "Ezio";
    form.ResetTimerFires();
    assert form.submitStatus == ContactBureau.Idle;

    var retry := form.Submit("Mon, Oct 12, 2026, 10:01 AM");
    assert retry.Some? && retry.value.message == "Hello";
    form.Settle(ContactBureau.Sent);
    assert form.submitStatus == ContactBureau.Success && form.formData == ContactBureau.EmptyForm();
  }
}
