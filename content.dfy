/** The per-page ad session controller of the content script (class AdManager
    of src/content.ts): it shows one simulated ad at a time in a side panel,
    counts its display time down on animation frames, and reports each ad to
    the background service with an AD_COMPLETED message. */
module ContentScript {
  import opened AdTypes

  /** The side panel element the session creates and removes; its styling and
      inner HTML are not modelled. */
  datatype Container = SidePanel

  /** A pending animation-frame callback of the countdown: the start time and
      duration its closure captured. Nothing else in the closure decides what
      it does. */
  datatype Timer = Timer(startTime: int, duration: int)

  /** The values one load of the next ad reads from Math.random (its type and
      id) and from Date.now. Handlers that may load an ad take one of these. */
  datatype Draw = Draw(adType: AdType, adId: string, now: int)

  const VideoDuration: int := 30000
  const BannerDuration: int := 15000

  /** The display time of an ad of the given type, in milliseconds. */
  function DisplayDuration(t: AdType): (d: int)
    ensures d > 0
    ensures d == VideoDuration <==> t == Video
    ensures d == BannerDuration <==> t == Banner
  {
    match t
    case Video => VideoDuration
    case Banner => BannerDuration
  }

  /** The engagement a load builds from its draw. */
  function NewAd(next: Draw): (e: AdEngagement)
    ensures !e.completed && e.adType == next.adType && e.adId == next.adId
    ensures e.startTime == next.now && e.duration == DisplayDuration(next.adType)
  {
    AdEngagement(next.adId, next.now, DisplayDuration(next.adType), false, next.adType)
  }

  /** The countdown a load registers for an ad. */
  function TimerOf(e: AdEngagement): (t: Timer)
  {
    Timer(e.startTime, e.duration)
  }

  /** An ad as it is while it is on display: not yet completed, and with the
      display time of its type. */
  predicate Displaying(e: AdEngagement)
  {
    !e.completed && e.duration == DisplayDuration(e.adType)
  }

  /** Math.ceil on the reals. */
  function Ceil(x: real): (c: int)
    ensures x <= c as real < x + 1.0
  {
    -((-x).Floor)
  }

  /** The whole seconds left on a countdown, as the timer computes them: the
      fewest whole seconds that cover the milliseconds still to run. */
  function RemainingSeconds(duration: int, elapsed: int): (r: int)
    ensures (r - 1) * 1000 < duration - elapsed <= r * 1000
  {
    Ceil((duration - elapsed) as real / 1000.0)
  }

  /** The countdown reaches zero exactly when the elapsed time has reached the
      duration: rounding up to whole seconds neither ends a display early nor
      keeps it past its end. */
  lemma TimerExpiredIff(duration: int, elapsed: int)
    ensures RemainingSeconds(duration, elapsed) <= 0 <==> elapsed >= duration
  {
  }

  class AdManager {
    var active: bool
    var currentAd: Option<AdEngagement>
    var adContainer: Option<Container>
    /** The animation-frame callbacks registered and not yet run. */
    var timers: multiset<Timer>
    /** Every message the script has sent, oldest first. */
    var outbox: seq<Message>

    /** Between handlers: the panel exists exactly while the session is active,
        an ad is current exactly while the session is active, and the current
        ad is on display with its own countdown pending. */
    ghost predicate Valid()
      reads this
    {
      && (active <==> adContainer.Some?)
      && (active <==> currentAd.Some?)
      && (currentAd.Some? ==> Displaying(currentAd.value) && TimerOf(currentAd.value) in timers)
    }

    constructor()
      ensures Valid()
      ensures !active && currentAd == None && adContainer == None
      ensures timers == multiset{} && outbox == []
    {
      active := false;
      currentAd := None;
      adContainer := None;
      timers := multiset{};
      outbox := [];
    }

    /** The START_ADS and STOP_ADS cases of the script's message listener; every
        other tag is ignored. The draw is read only when START_ADS loads an ad. */
    method OnMessage(msg: Message, next: Draw)
      requires Valid()
      modifies this
      ensures Valid()
      ensures msg.StartAds? && old(active) ==> unchanged(this)
      ensures msg.StartAds? && !old(active) ==>
        && active && adContainer == Some(SidePanel)
        && currentAd == Some(NewAd(next))
        && timers == old(timers) + multiset{TimerOf(NewAd(next))}
        && outbox == old(outbox)
      ensures msg.StopAds? ==> !active && currentAd.None? && adContainer.None?
      ensures msg.StopAds? && !old(active) ==> unchanged(this)
      ensures msg.StopAds? && old(active) ==>
        && outbox == old(outbox) + [AdCompleted(old(currentAd).value.(completed := false))]
        && timers == old(timers)
      ensures !msg.StartAds? && !msg.StopAds? ==> unchanged(this)
    {
      match msg
      case StartAds => StartAdSession(next);
      case StopAds => StopAdSession();
      case _ =>
    }

    /** Starts a session: ignored while one is active; otherwise it creates the
        panel and loads exactly one ad, sending nothing. */
    method StartAdSession(next: Draw)
      requires Valid()
      modifies this
      ensures Valid()
      ensures old(active) ==> unchanged(this)
      ensures !old(active) ==>
        && active && adContainer == Some(SidePanel)
        && currentAd == Some(NewAd(next))
        && timers == old(timers) + multiset{TimerOf(NewAd(next))}
        && outbox == old(outbox)
    {
      if active {
        return;
      }
      active := true;
      adContainer := Some(SidePanel);
      LoadNextAd(next);
    }

    /** Stops a session: ignored while none is active; otherwise the current ad
        is reported as not completed and no replacement is loaded, because the
        session is marked inactive before the ad is completed, so completing it
        only reports it. Pending countdowns stay registered. */
    method StopAdSession()
      requires Valid()
      modifies this
      ensures Valid()
      ensures !active && adContainer.None? && currentAd.None?
      ensures !old(active) ==> unchanged(this)
      ensures old(active) ==>
        && outbox == old(outbox) + [AdCompleted(old(currentAd).value.(completed := false))]
        && timers == old(timers)
    {
      if !active {
        return;
      }
      active := false;
      if currentAd.Some? {
        ReportCurrentAd(false);
      }
      if adContainer.Some? {
        adContainer := None;
      }
    }

    /** A visibility change of the page. The listener is registered only while
        a session is active. When the page is hidden, the current ad is
        reported as not completed and, the session being still active, the next
        ad is loaded at once. */
    method HandleVisibilityChange(hidden: bool, next: Draw)
      requires Valid()
      modifies this
      ensures Valid()
      ensures hidden && old(active) ==>
        && active && adContainer == old(adContainer)
        && outbox == old(outbox) + [AdCompleted(old(currentAd).value.(completed := false))]
        && currentAd == Some(NewAd(next))
        && timers == old(timers) + multiset{TimerOf(NewAd(next))}
      ensures !(hidden && old(active)) ==> unchanged(this)
    {
      if active && hidden && currentAd.Some? {
        CompleteCurrentAd(false, next);
      }
    }

    /** Builds the next ad and registers its countdown, unless the session is
        inactive or has no panel. */
    method LoadNextAd(next: Draw)
      modifies this
      ensures active == old(active) && adContainer == old(adContainer) && outbox == old(outbox)
      ensures old(active) && old(adContainer).Some? ==>
        currentAd == Some(NewAd(next)) && timers == old(timers) + multiset{TimerOf(NewAd(next))}
      ensures !(old(active) && old(adContainer).Some?) ==>
        currentAd == old(currentAd) && timers == old(timers)
    {
      if !active || adContainer.None? {
        return;
      }
      var ad := NewAd(next);
      currentAd := Some(ad);
      timers := timers + multiset{Timer(ad.startTime, ad.duration)};
    }

    /** One run of a pending countdown callback `t` at time `now`. The callback
        is taken off the pending collection. It checks only that the session is
        active and that SOME ad is current, not that the ad is the one it was
        registered for: once its own duration has elapsed, it completes
        whatever ad is current; before that it registers itself again. */
    method Tick(t: Timer, now: int, next: Draw)
      requires Valid()
      requires t in timers
      modifies this
      ensures Valid()
      ensures active == old(active) && adContainer == old(adContainer)
      ensures !old(active) ==>
        && timers == old(timers) - multiset{t}
        && currentAd == old(currentAd) && outbox == old(outbox)
      ensures old(active) && now - t.startTime >= t.duration ==>
        && outbox == old(outbox) + [AdCompleted(old(currentAd).value.(completed := true))]
        && currentAd == Some(NewAd(next))
        && timers == old(timers) - multiset{t} + multiset{TimerOf(NewAd(next))}
      ensures old(active) && now - t.startTime < t.duration ==> unchanged(this)
    {
      timers := timers - multiset{t};
      if !active || currentAd.None? {
        return;
      }
      var elapsed := now - t.startTime;
      var remaining := RemainingSeconds(t.duration, elapsed);
      TimerExpiredIff(t.duration, elapsed);
      if remaining <= 0 {
        CompleteCurrentAd(true, next);
      } else {
        timers := timers + multiset{t};
        assert timers == old(timers);
      }
    }

    /** Reports the current ad, if any, with the given outcome, clears it, and
        loads the next one while the session is active. */
    method CompleteCurrentAd(success: bool, next: Draw)
      modifies this
      ensures active == old(active) && adContainer == old(adContainer)
      ensures old(currentAd).None? ==> unchanged(this)
      ensures old(currentAd).Some? ==>
        outbox == old(outbox) + [AdCompleted(old(currentAd).value.(completed := success))]
      ensures old(currentAd).Some? && active && adContainer.Some? ==>
        currentAd == Some(NewAd(next)) && timers == old(timers) + multiset{TimerOf(NewAd(next))}
      ensures old(currentAd).Some? && !(active && adContainer.Some?) ==>
        currentAd.None? && timers == old(timers)
    {
      if currentAd.None? {
        return;
      }
      ReportCurrentAd(success);
      if active {
        LoadNextAd(next);
      }
    }

    /** The reporting half of completing an ad: the current ad, with its
        completed flag set to the outcome, is sent and then cleared. This is all
        that completing does once the session is inactive, since no next ad is
        loaded then. */
    method ReportCurrentAd(success: bool)
      requires currentAd.Some?
      modifies this`outbox, this`currentAd
      ensures outbox == old(outbox) + [AdCompleted(old(currentAd).value.(completed := success))]
      ensures currentAd.None?
    {
      var finished := currentAd.value.(completed := success);
      outbox := outbox + [AdCompleted(finished)];
      currentAd := None;
    }
  }

  /** A countdown left over from an interrupted ad completes its replacement
      early. A banner shown at 0 is interrupted at 14000 by the page being
      hidden, and a video replaces it; at 15000 the banner's countdown runs,
      finds its own 15 seconds elapsed and reports the video as completed
      after 1 of its 30 seconds. */
  method StaleTimerScenario() returns (sent: seq<Message>)
    ensures |sent| == 2
    ensures sent[0] == AdCompleted(AdEngagement("first", 0, BannerDuration, false, Banner))
    ensures sent[1] == AdCompleted(AdEngagement("second", 14000, VideoDuration, true, Video))
    ensures 15000 - sent[1].engagement.startTime < sent[1].engagement.duration
  {
    var m := new AdManager();
    m.StartAdSession(Draw(Banner, "first", 0));
    m.HandleVisibilityChange(true, Draw(Video, "second", 14000));
    m.Tick(Timer(0, BannerDuration), 15000, Draw(Banner, "third", 15000));
    sent := m.outbox;
  }
}
