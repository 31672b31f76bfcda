/** The extension-wide background service (class BackgroundService of
    src/background.ts): it owns the signed-in user and the settings, keeps
    both in the extension's key/value store, credits a reward for every
    AD_COMPLETED message and announces each change with a message. */
module Background {
  import opened AdTypes

  /** The store keys this service reads and writes. */
  const UserKey: string := "user"
  const SettingsKey: string := "settings"

  /** A value in the key/value store. Values other than a profile or a
      settings object (the popup's ad network configurations) are opaque here. */
  datatype StoredValue =
    | StoredUser(user: UserProfile)
    | StoredSettings(settings: AdSettings)
    | OtherValue

  /** What the identity provider and the userinfo request produce: the
      profile's email and name, or a thrown value, which is either an Error with
      a message (Some) or anything else (None). */
  datatype LoginOutcome =
    | Authenticated(email: string, name: string)
    | Failed(error: Option<string>)

  /** The settings the service holds before anything is loaded. */
  const DefaultSettings: AdSettings := map["shareData" := false]

  /** The text a failed login reports. */
  function ErrorText(error: Option<string>): (text: string)
    ensures error.Some? ==> text == error.value
    ensures error.None? ==> text == "An unknown error occurred"
  {
    match error
    case Some(message) => message
    case None => "An unknown error occurred"
  }

  /** The reward for one reported ad, in hundredths: 0.05 for a video and 0.01
      for anything else. Neither the completed flag nor the duration is read. */
  function Reward(e: AdEngagement): (r: int)
    ensures e.adType == Video ==> r == 5
    ensures e.adType != Video ==> r == 1
  {
    if e.adType == Video then 5 else 1
  }

  lemma RewardTable(e: AdEngagement, completed: bool)
    ensures e.adType == Video ==> Reward(e) == 5
    ensures e.adType == Banner ==> Reward(e) == 1
    ensures Reward(e.(completed := completed)) == Reward(e)
  {
  }

  /** The profile after one reported ad is credited. With nobody signed in
      nothing is credited. */
  function Credit(user: Option<UserProfile>, e: AdEngagement): (r: Option<UserProfile>)
    ensures r.Some? <==> user.Some?
    ensures r.Some? ==> r.value.email == user.value.email && r.value.name == user.value.name
    ensures r.Some? ==> r.value.balance == user.value.balance + Reward(e)
    ensures r.Some? ==> user.value.balance < r.value.balance <= user.value.balance + 5
  {
    match user
    case None => None
    case Some(u) => Some(u.(balance := u.balance + Reward(e)))
  }

  /** The profile after the reported ads are credited one after the other. */
  function CreditAll(user: Option<UserProfile>, es: seq<AdEngagement>): (r: Option<UserProfile>)
    decreases |es|
  {
    if es == [] then user else CreditAll(Credit(user, es[0]), es[1..])
  }

  /** The sum of the rewards for the reported ads. */
  function TotalReward(es: seq<AdEngagement>): (total: int)
    decreases |es|
  {
    if es == [] then 0 else Reward(es[0]) + TotalReward(es[1..])
  }

  /** Crediting never changes who is signed in and adds exactly the sum of the
      rewards to the balance: nothing is lost and nothing is counted twice. */
  lemma {:induction false} CreditAllAddsTotal(u: UserProfile, es: seq<AdEngagement>)
    ensures CreditAll(Some(u), es) == Some(u.(balance := u.balance + TotalReward(es)))
    decreases |es|
  {
    if es != [] {
      CreditAllAddsTotal(u.(balance := u.balance + Reward(es[0])), es[1..]);
    }
  }

  /** With nobody signed in, any number of reported ads leaves nobody signed in. */
  lemma {:induction false} CreditAllWithoutUser(es: seq<AdEngagement>)
    ensures CreditAll(None, es) == None
    decreases |es|
  {
    if es != [] {
      CreditAllWithoutUser(es[1..]);
    }
  }

  /** Every reported ad raises the total by at least 0.01 and at most 0.05. */
  lemma {:induction false} TotalRewardBounds(es: seq<AdEngagement>)
    ensures |es| <= TotalReward(es) <= 5 * |es|
    decreases |es|
  {
    if es != [] {
      TotalRewardBounds(es[1..]);
    }
  }

  /** Crediting two batches one after the other is crediting them together. */
  lemma {:induction false} CreditAllAppend(user: Option<UserProfile>, xs: seq<AdEngagement>, ys: seq<AdEngagement>)
    ensures CreditAll(user, xs + ys) == CreditAll(CreditAll(user, xs), ys)
    decreases |xs|
  {
    if xs == [] {
      assert xs + ys == ys;
    } else {
      assert (xs + ys)[1..] == xs[1..] + ys;
      CreditAllAppend(Credit(user, xs[0]), xs[1..], ys);
    }
  }

  /** Crediting is not idempotent: the same report credited twice pays twice. */
  lemma CreditNotIdempotent(u: UserProfile, e: AdEngagement)
    ensures Credit(Credit(Some(u), e), e) != Credit(Some(u), e)
    ensures Credit(Credit(Some(u), e), e).value.balance == u.balance + 2 * Reward(e)
  {
  }

  /** The object spread of the settings update: the incoming fields win and
      every other current field is kept. */
  function MergeSettings(current: AdSettings, incoming: AdSettings): (merged: AdSettings)
    ensures merged.Keys == current.Keys + incoming.Keys
    ensures forall k :: k in incoming ==> merged[k] == incoming[k]
    ensures forall k :: k in current && k !in incoming ==> merged[k] == current[k]
  {
    current + incoming
  }

  /** Applying the same settings update twice is applying it once. */
  lemma MergeSettingsIdempotent(current: AdSettings, incoming: AdSettings)
    ensures MergeSettings(MergeSettings(current, incoming), incoming) == MergeSettings(current, incoming)
  {
  }

  /** The store holds a profile under "user" and a settings object under
      "settings", whenever those keys are present. */
  ghost predicate StoreWellTyped(store: map<string, StoredValue>)
  {
    && (UserKey in store ==> store[UserKey].StoredUser?)
    && (SettingsKey in store ==> store[SettingsKey].StoredSettings?)
  }

  class BackgroundService {
    var user: Option<UserProfile>
    var settings: AdSettings
    /** The extension's persisted key/value store. */
    var store: map<string, StoredValue>
    /** Every message the service has sent, oldest first. */
    var outbox: seq<Message>

    /** The signed-in user, if any, is also the stored one, and the settings
        are either the defaults or the stored ones. */
    ghost predicate Valid()
      reads this
    {
      && StoreWellTyped(store)
      && (user.Some? ==> UserKey in store && store[UserKey] == StoredUser(user.value))
      && (settings == DefaultSettings || (SettingsKey in store && store[SettingsKey] == StoredSettings(settings)))
    }

    /** The service as created, before the asynchronous load has read the store. */
    constructor(persisted: map<string, StoredValue>)
      requires StoreWellTyped(persisted)
      ensures Valid()
      ensures user == None && settings == DefaultSettings
      ensures store == persisted && outbox == []
    {
      user := None;
      settings := DefaultSettings;
      store := persisted;
      outbox := [];
    }

    /** The message listener: LOGIN, LOGOUT, UPDATE_SETTINGS and AD_COMPLETED
        have handlers; every other tag, START_ADS and UPDATE_AD_NETWORK
        included, is ignored. A LOGIN is answered with the given outcome of the
        sign-in requests. */
    method OnMessage(msg: Message, login: LoginOutcome)
      requires Valid()
      modifies this
      ensures Valid()
      ensures msg.Login? && login.Authenticated? ==>
        && user == Some(UserProfile(login.email, login.name, 0))
        && settings == old(settings)
        && store == old(store)[UserKey := StoredUser(user.value)]
        && outbox == old(outbox) + [LoginSuccess(user.value)]
      ensures msg.Login? && login.Failed? ==>
        && user == old(user) && settings == old(settings) && store == old(store)
        && outbox == old(outbox) + [LoginError(ErrorText(login.error))]
      ensures msg.Logout? ==>
        && user == None && settings == old(settings)
        && store == old(store) - {UserKey}
        && outbox == old(outbox) + [LogoutSuccess]
      ensures msg.UpdateSettings? ==>
        && settings == MergeSettings(old(settings), msg.settings)
        && store == old(store)[SettingsKey := StoredSettings(settings)]
        && user == old(user) && outbox == old(outbox)
      ensures msg.AdCompleted? ==> user == Credit(old(user), msg.engagement)
      ensures msg.AdCompleted? && old(user).None? ==> unchanged(this)
      ensures msg.AdCompleted? && old(user).Some? ==>
        && store == old(store)[UserKey := StoredUser(user.value)]
        && settings == old(settings)
        && outbox == old(outbox) + [BalanceUpdated(user.value.balance)]
      ensures !(msg.Login? || msg.Logout? || msg.UpdateSettings? || msg.AdCompleted?) ==> unchanged(this)
    {
      match msg
      case Login => HandleLogin(login);
      case Logout => HandleLogout();
      case UpdateSettings(incoming) => this.UpdateSettings(incoming);
      case AdCompleted(engagement) => HandleAdCompletion(engagement);
      case _ =>
    }

    /** Completes a sign-in. On success the user is replaced by a fresh profile
        with balance 0, whatever balance was held before, stored and announced;
        on failure the error is announced and nothing else changes. */
    method HandleLogin(outcome: LoginOutcome)
      requires Valid()
      modifies this
      ensures Valid()
      ensures settings == old(settings)
      ensures outcome.Authenticated? ==>
        && user == Some(UserProfile(outcome.email, outcome.name, 0))
        && store == old(store)[UserKey := StoredUser(user.value)]
        && outbox == old(outbox) + [LoginSuccess(user.value)]
      ensures outcome.Failed? ==>
        && user == old(user) && store == old(store)
        && outbox == old(outbox) + [LoginError(ErrorText(outcome.error))]
    {
      match outcome
      case Authenticated(email, name) =>
        user := Some(UserProfile(email, name, 0));
        SaveUserData();
        outbox := outbox + [LoginSuccess(user.value)];
      case Failed(error) =>
        var errorMessage := ErrorText(error);
        outbox := outbox + [LoginError(errorMessage)];
    }

    /** Signs the user out: only the "user" key is removed from the store and
        the settings are kept. */
    method HandleLogout()
      requires Valid()
      modifies this
      ensures Valid()
      ensures user == None && settings == old(settings)
      ensures store == old(store) - {UserKey}
      ensures outbox == old(outbox) + [LogoutSuccess]
    {
      user := None;
      store := store - {UserKey};
      outbox := outbox + [LogoutSuccess];
    }

    /** Merges a settings update into the settings and stores the result; no
        message is sent. */
    method UpdateSettings(incoming: AdSettings)
      requires Valid()
      modifies this
      ensures Valid()
      ensures settings == MergeSettings(old(settings), incoming)
      ensures store == old(store)[SettingsKey := StoredSettings(settings)]
      ensures user == old(user) && outbox == old(outbox)
    {
      settings := MergeSettings(settings, incoming);
      store := store[SettingsKey := StoredSettings(settings)];
    }

    /** Credits one reported ad. With nobody signed in nothing happens;
        otherwise the balance rises by the reward, the profile is stored and the
        new balance is announced. */
    method HandleAdCompletion(engagement: AdEngagement)
      requires Valid()
      modifies this
      ensures Valid()
      ensures user == Credit(old(user), engagement)
      ensures old(user).None? ==> unchanged(this)
      ensures old(user).Some? ==>
        && user.Some? && user.value.balance == old(user).value.balance + Reward(engagement)
        && store == old(store)[UserKey := StoredUser(user.value)]
        && settings == old(settings)
        && outbox == old(outbox) + [BalanceUpdated(user.value.balance)]
    {
      if user.None? {
        return;
      }
      var reward := Reward(engagement);
      user := Some(user.value.(balance := user.value.balance + reward));
      SaveUserData();
      outbox := outbox + [BalanceUpdated(user.value.balance)];
    }

    /** Reads the user and the settings from the store; each is overwritten
        only when the store holds a value for it. */
    method LoadUserData()
      requires Valid()
      modifies this
      ensures Valid()
      ensures user == if UserKey in store then Some(store[UserKey].user) else old(user)
      ensures settings == if SettingsKey in store then store[SettingsKey].settings else old(settings)
      ensures store == old(store) && outbox == old(outbox)
    {
      if UserKey in store {
        user := Some(store[UserKey].user);
      }
      if SettingsKey in store {
        settings := store[SettingsKey].settings;
      }
    }

    /** Stores the user under "user" when somebody is signed in. */
    method SaveUserData()
      modifies this
      ensures user == old(user) && settings == old(settings) && outbox == old(outbox)
      ensures store == if user.Some? then old(store)[UserKey := StoredUser(user.value)] else old(store)
    {
      if user.Some? {
        store := store[UserKey := StoredUser(user.value)];
      }
    }
  }
}
