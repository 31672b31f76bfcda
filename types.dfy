/** The records and the message tag set shared by the background service and
    the content script of the ads-rewards extension. */
module AdTypes {

  datatype Option<+T> = None | Some(value: T)

  /** The two kinds of simulated ad. */
  datatype AdType = Video | Banner

  /** One displayed ad and its outcome. Times are milliseconds of the page clock. */
  datatype AdEngagement = AdEngagement(
    adId: string,
    startTime: int,
    duration: int,
    completed: bool,
    adType: AdType)

  /** The signed-in user. The balance is kept in hundredths of the currency unit,
      so that the rewards 0.05 and 0.01 are the exact integers 5 and 1. */
  datatype UserProfile = UserProfile(email: string, name: string, balance: int)

  /** A settings object: named boolean flags (the one the extension knows is
      "shareData"). A map, so that an object spread is a map union. */
  type AdSettings = map<string, bool>

  /** The message tags, each with the payload its senders attach. */
  datatype Message =
    | Login
    | Logout
    | UpdateSettings(settings: AdSettings)
    | StartAds
    | StopAds
    | AdCompleted(engagement: AdEngagement)
    | LoginSuccess(user: UserProfile)
    | LoginError(error: string)
    | LogoutSuccess
    | BalanceUpdated(balance: int)
    | UpdateAdNetwork
}
