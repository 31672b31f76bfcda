# ads-rewards: the ad session and the reward ledger

This project models the two state machines at the heart of the ads-rewards
browser extension and proves properties of them in Dafny.

- **The content script's ad session** (`ContentScript.AdManager`, from
  `src/content.ts`). Each page runs one session controller. Its state is three
  fields: whether a session is `active`, the `currentAd` engagement (or none),
  and the side-panel `adContainer` (or none). The model adds two things:
  - `timers`: the multiset of animation-frame countdown callbacks that are
    registered and not yet run. Each is recorded as the start time and
    duration its closure captured.
  - `outbox`: every `AD_COMPLETED` message the script has sent, in order.

  The handlers are start, stop, page-visibility change, one countdown
  callback run (`Tick`), and complete-current-ad. `Math.random` and `Date.now`
  are parameters: each handler that may load an ad receives a `Draw` holding
  the ad type, the ad id and the clock value that load would read.
- **The background service's ledger** (`Background.BackgroundService`, from
  `src/background.ts`). Its state is the signed-in `user` (or none), the
  `settings`, the extension's key/value `store` (a map) and an `outbox` of
  messages. The handlers are ad-completion credit, logout, settings update,
  login success or failure, load from the store and save to the store. The
  message dispatcher routes to these handlers.

Balances are integers counting hundredths of the currency unit. A video
earns 5 and anything else earns 1, exactly 0.05 and 0.01. The `completed`
flag of a reported ad is never read when crediting.

The object invariants are:
- `AdManager.Valid`: the panel exists exactly while a session is active; an ad
  is current exactly while a session is active; and the current ad is
  uncompleted, has the duration of its type, and has its own countdown
  pending.
- `BackgroundService.Valid`: a signed-in user is also the stored user; the
  settings are either the defaults or the stored settings; and the `user` and
  `settings` keys hold values of the right kind.

Every handler preserves its class's invariant.

A countdown callback checks only that the session is active and that *some*
ad is current. It does not check that the current ad is the one it was
registered for. When the page is hidden, the current ad is reported as not
completed and a replacement is loaded at once, but the interrupted ad's
countdown stays registered. Once that countdown's own duration has elapsed,
it reports the replacement as completed. The model keeps this behaviour.
`StaleTimerScenario` proves one concrete run: a video is reported completed
after 1 of its 30 seconds.

Four facts about the code shape the model:
- The code pays the same reward whether or not a view was completed. The
  reward at `src/background.ts:81` reads only the ad type.
- Starting a session reads no ad-network configuration. The ad type is
  drawn at random (`src/content.ts:85`).
- Hiding the page does not pause the rotation. The next ad is loaded
  immediately (`src/content.ts:144-145`).
- The background dispatcher has no case for `START_ADS` or
  `UPDATE_AD_NETWORK` (`src/background.ts:17-33`). So the background service
  never stores an ad-network configuration and never picks a network.

## Model

| member | source | states |
|---|---|---|
| ContentScript.DisplayDuration | src/content.ts:91 | the display time is positive; it is 30000 ms exactly for a video and 15000 ms exactly for a banner |
| ContentScript.NewAd | src/content.ts:88-94 | a freshly loaded ad is not completed, carries the drawn type, id and clock value as its start time, and has the display time of its type |
| ContentScript.RemainingSeconds | src/content.ts:119-120 | the seconds shown are the fewest whole seconds that cover the milliseconds still to run: (r - 1) * 1000 < duration - elapsed <= r * 1000 |
| ContentScript.Ceil | src/content.ts:120 | Math.ceil: the result is the least integer at or above its argument |
| ContentScript.TimerExpiredIff | src/content.ts:119-122 | the rounded-up seconds remaining are at most 0 exactly when the elapsed time has reached the duration |
| ContentScript.AdManager.constructor | src/content.ts:3-10 | a new controller is inactive, with no ad, no panel, no pending countdown and nothing sent |
| ContentScript.AdManager.OnMessage | src/content.ts:13-25 | START_ADS while active changes nothing, and otherwise makes the session active with a panel, one drawn ad current and its countdown added, sending nothing; STOP_ADS while inactive changes nothing, and otherwise sends one AD_COMPLETED with completed false and leaves no session, ad or panel, with the countdowns unchanged; any other tag changes nothing; the invariant is kept |
| ContentScript.AdManager.StartAdSession | src/content.ts:45-56 | when already active nothing changes; otherwise the session becomes active with a panel, exactly one uncompleted ad built from the draw is current, its countdown is added to the pending ones, and nothing is sent |
| ContentScript.AdManager.StopAdSession | src/content.ts:58-72 | takes no input; when inactive nothing changes; otherwise exactly one AD_COMPLETED for the current ad with completed false is sent, and afterwards the session is inactive with no ad and no panel, so no replacement is loaded; pending countdowns stay registered |
| ContentScript.AdManager.HandleVisibilityChange | src/content.ts:74-78 | hiding the page during a session sends one AD_COMPLETED with completed false for the current ad, keeps the session active and makes a new ad from the draw current, with its countdown added; any other change, or no session, changes nothing |
| ContentScript.AdManager.LoadNextAd | src/content.ts:80-131 | when active with a panel, the drawn ad becomes current and its countdown is registered; otherwise nothing changes; nothing is sent |
| ContentScript.AdManager.Tick | src/content.ts:116-128 | the callback run is removed from the pending countdowns; with no session nothing else changes; during a session, if its own start time plus duration has been reached, the current ad, whichever it is, is sent with completed true and a new ad is loaded, otherwise the callback is registered again and nothing changes |
| ContentScript.AdManager.CompleteCurrentAd | src/content.ts:133-147 | with no current ad nothing changes; otherwise exactly one AD_COMPLETED carrying that ad with the given completed flag is appended, and then the next ad is loaded if the session is active and the current ad is cleared if not |
| ContentScript.AdManager.ReportCurrentAd | src/content.ts:136-142 | the current ad, with its completed flag set to the outcome, is appended to the sent messages as one AD_COMPLETED, and no ad is current afterwards |
| ContentScript.StaleTimerScenario | src/content.ts:113-128 | a banner's countdown that outlives its banner, interrupted by the page being hidden, reports the replacing video as completed 1000 ms after it started, before its 30000 ms display time |
| Background.ErrorText | src/background.ts:59-62 | a failed login reports the thrown Error's message, or "An unknown error occurred" for any other thrown value |
| Background.Reward | src/background.ts:81 | the reward is 5 hundredths for a video and 1 for anything else |
| Background.Credit | src/background.ts:78-82 | with nobody signed in nobody is credited; otherwise email and name are kept and the balance rises by exactly the reward, so by more than 0 and at most 5 hundredths |
| Background.RewardTable | src/background.ts:81 | the reward is 5 hundredths for a video and 1 for a banner, and the completed flag does not change it |
| Background.CreditAllAddsTotal | src/background.ts:77-82 | crediting a sequence of reported ads to a signed-in user keeps the email and name and raises the balance by exactly the sum of their rewards |
| Background.CreditAllWithoutUser | src/background.ts:78 | with nobody signed in, crediting any sequence of reports leaves nobody signed in |
| Background.TotalRewardBounds | src/background.ts:81 | n reported ads earn at least 1 and at most 5 hundredths each, so every credit raises the balance |
| Background.CreditAllAppend | src/background.ts:82 | crediting two batches in turn equals crediting their concatenation |
| Background.CreditNotIdempotent | src/background.ts:82 | the same report credited twice pays its reward twice |
| Background.MergeSettings | src/background.ts:73 | the merged settings have the keys of both; each incoming field wins and every other current field is kept |
| Background.MergeSettingsIdempotent | src/background.ts:73 | applying the same settings update twice equals applying it once |
| Background.BackgroundService.constructor | src/background.ts:3-12 | before the load, nobody is signed in, the settings are the defaults (shareData false), the store is as persisted and nothing is sent |
| Background.BackgroundService.OnMessage | src/background.ts:16-36 | LOGIN, LOGOUT, UPDATE_SETTINGS and AD_COMPLETED have exactly the effect on user, settings, store and sent messages that their handlers state (login success or failure, logout, settings merge, credit); every other tag, START_ADS and UPDATE_AD_NETWORK included, changes nothing; the invariant is kept |
| Background.BackgroundService.HandleLogin | src/background.ts:39-64 | on success the user becomes a profile with the given email and name and balance 0, whatever was held before, it is stored under "user", and LOGIN_SUCCESS carries it; on failure only LOGIN_ERROR with the error text is sent and the user and store are unchanged |
| Background.BackgroundService.HandleLogout | src/background.ts:66-70 | nobody is signed in afterwards, only the "user" key is removed from the store, the settings are unchanged, and LOGOUT_SUCCESS is sent |
| Background.BackgroundService.UpdateSettings | src/background.ts:72-75 | the settings become the merge of the old settings and the update, that result is stored under "settings", and the user and outbox are unchanged |
| Background.BackgroundService.HandleAdCompletion | src/background.ts:77-89 | with nobody signed in nothing changes; otherwise the balance rises by exactly the reward, the stored user equals the in-memory user, the settings are unchanged, and one BALANCE_UPDATED carries the new balance |
| Background.BackgroundService.LoadUserData | src/background.ts:91-95 | the user, and separately the settings, are replaced by the stored value exactly when the store holds one, and are otherwise kept |
| Background.BackgroundService.SaveUserData | src/background.ts:97-101 | the store gets the user under "user" exactly when somebody is signed in; nothing else changes |

## Left out

- ContentScript.AdManager.LoadNextAd: the code reads the clock twice, once for the ad's start time (`src/content.ts:90`) and once for the countdown's start (`src/content.ts:114`). The model reads it once, so both are the same value. In the code they can differ by the time the few statements between the two reads take.
- ContentScript.AdManager.Tick: one step runs one pending callback, chosen freely. A browser runs all the callbacks registered before a frame, in registration order, within that frame. The model allows every such order and does not group steps into frames.
- DOM work is not modelled: the panel's styling and content, the countdown text, and the registering and removing of the visibility listener. The listener is present exactly while a session is active, so the model guards the visibility handler with `active`.
- The popup (`src/popup.ts`) is not modelled. It is UI wiring: buttons, form prefill and its own reads of the store. This includes its removal of the ad-network configurations on logout.
- Ad-network configurations and their upsert are not modelled, because no handler in the core reads or writes them. The store keeps them as opaque values.
- The identity token request and the userinfo request are not modelled. They are foreign calls, so a login is given as its outcome: an email and a name, or a thrown value.
- Storage and message delivery always succeed in the model. The code does not handle a failing store. If a store write fails during login, the code's catch would send LOGIN_ERROR after the user is already set; the model does not capture this.
- Asynchronous interleaving between handlers and between the two scripts is not modelled. Each handler runs to completion as one step.
- Floating-point balances and their display are not modelled. Balances are exact hundredths, which matches the code as long as the float sum does not drift.
- Background.BackgroundService.constructor: the store is assumed to hold a profile under "user" and a settings object under "settings" whenever those keys are present. Only this service writes them.
- Console logging is not modelled, and neither is the listeners' `return true`.
