/** The database the services share. */
module BillingStore {
  import opened BillingModel

  class Store {
    var users: seq<User>
    var subscriptions: seq<Subscription>
    var referrals: map<nat, Referral>
    var events: map<string, bool>
    const waitingMs: nat

    function View(): Database
      reads this
    {
      Database(users, subscriptions, referrals, events, waitingMs)
    }

    constructor (waitingMs: nat)
      ensures View() == Database([], [], map[], map[], waitingMs)
    {
      users, subscriptions, referrals, events := [], [], map[], map[];
      this.waitingMs := waitingMs;
    }
  }
}
