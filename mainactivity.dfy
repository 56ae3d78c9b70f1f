/**
 * MainActivity: which screen the app shows (`AppState`), the lock on
 * return from the background, and the work done when the setup wizard
 * completes. Lifecycle callbacks are methods; the current time is a parameter.
 */
module Main {
  import opened Wrappers
  import opened Entities
  import opened Tables
  import opened Database
  import opened Repository
  import opened Preferences

  datatype AppState = Splash | Setup | PinSetup | Locked | Home

  /** How long the app may stay in the background before a return asks for the PIN again. */
  const ResumeLockCooldown: int := 6000

  /** The ids the opening balances are written to: the seeded Cash and Bank Account on a fresh database. */
  const CashAccountId: int := 1
  const BankAccountId: int := 2

  const OpeningBalanceDescription := "Opening Balance"

  /** Where the splash screen leads: the lock when a PIN guards the app, else setup until done, else home. */
  function InitialRoute(pinCode: Option<string>, appLockEnabled: bool, setupDone: bool): (r: AppState)
    ensures r == Locked <==> pinCode.Some? && appLockEnabled
    ensures r == Setup <==> !(pinCode.Some? && appLockEnabled) && !setupDone
    ensures r == Home <==> !(pinCode.Some? && appLockEnabled) && setupDone
  {
    if pinCode.Some? && appLockEnabled then Locked
    else if !setupDone then Setup
    else Home
  }

  /** The `onStart` decision: a guarded app that stayed away longer than the cooldown locks again. */
  predicate ShouldLock(pinCode: Option<string>, appLockEnabled: bool, now: int, lastBackground: int) {
    pinCode.Some? && appLockEnabled && now - lastBackground > ResumeLockCooldown
  }

  /** `saveInitialTransaction`: a CREDIT of the opening amount, CASH for account 1 and BANK otherwise. */
  function OpeningTransaction(amount: real, accountId: int, now: int): (t: Transaction)
    ensures t.id == 0 && t.fields.accountId == accountId
    ensures t.fields.category == CREDIT && t.fields.amount == amount && t.fields.date == now
    ensures t.fields.kind == (if accountId == CashAccountId then CASH else BANK)
    ensures t.fields.description == OpeningBalanceDescription
    ensures Signed(t) == amount
  {
    NewTransaction(if accountId == CashAccountId then CASH else BANK, CREDIT, amount, now,
                   OpeningBalanceDescription, accountId)
  }

  /** The balance setup adds: each positive opening amount, nothing for zero or less. */
  function OpeningTotal(cash: real, bank: real): (r: real)
    ensures r >= 0.0
    ensures cash <= 0.0 && bank <= 0.0 ==> r == 0.0
  {
    (if cash > 0.0 then cash else 0.0) + (if bank > 0.0 then bank else 0.0)
  }

  /**
   * On a fresh database the hard-coded ids name the seeded accounts: id 1
   * is "Cash" and id 2 is "Bank Account". Once the counter has moved on
   * (accounts were created and all deleted), seeding uses other ids.
   */
  lemma OpeningAccountsOnFreshDatabase(t: Table<AccountFields>)
    requires t.Valid() && t.rows == map[]
    ensures t.next == 1 ==>
              CashAccountId in Seeded(t).rows && Seeded(t).rows[CashAccountId].fields.name == "Cash" &&
              BankAccountId in Seeded(t).rows && Seeded(t).rows[BankAccountId].fields.name == "Bank Account"
    ensures t.next > 2 ==> CashAccountId !in Seeded(t).rows && BankAccountId !in Seeded(t).rows
  {
  }

  class MainActivity {
    const prefs: PreferenceManager
    const repository: DataRepository
    var isAppInBackground: bool
    var shouldLockApp: bool
    var lastBackgroundTimestamp: int
    var appState: AppState

    ghost predicate Valid()
      reads this, prefs, repository, repository.db
    {
      prefs.Valid() && repository.db.Valid()
    }

    constructor (prefs: PreferenceManager, repository: DataRepository)
      ensures this.prefs == prefs && this.repository == repository
      ensures !isAppInBackground && !shouldLockApp && lastBackgroundTimestamp == 0
      ensures appState == Splash
    {
      this.prefs := prefs;
      this.repository := repository;
      isAppInBackground := false;
      shouldLockApp := false;
      lastBackgroundTimestamp := 0;
      appState := Splash;
    }

    /** The process goes to the background at time `now`. */
    method OnStop(now: int)
      modifies this
      ensures isAppInBackground && lastBackgroundTimestamp == now
      ensures shouldLockApp == old(shouldLockApp) && appState == old(appState)
    {
      isAppInBackground := true;
      lastBackgroundTimestamp := now;
    }

    /**
     * The process returns at time `now`. Both `onStart` observers run in
     * the order they were registered: the first decides `shouldLockApp`,
     * the second switches to the lock screen on that decision and clears it.
     */
    method OnStart(now: int)
      modifies this
      ensures !isAppInBackground && !shouldLockApp
      ensures lastBackgroundTimestamp == old(lastBackgroundTimestamp)
      ensures appState ==
                if ShouldLock(prefs.PinCode(), prefs.IsAppLockEnabled(), now, old(lastBackgroundTimestamp))
                then Locked else old(appState)
    {
      isAppInBackground := false;
      var currentTime := now;
      if prefs.PinCode().Some? && prefs.IsAppLockEnabled() && currentTime - lastBackgroundTimestamp > ResumeLockCooldown {
        shouldLockApp := true;
      } else {
        shouldLockApp := false;
      }
      // the resume observer
      if shouldLockApp && prefs.PinCode().Some? && prefs.IsAppLockEnabled() {
        appState := Locked;
      }
      shouldLockApp := false;
    }

    /** The splash screen's `onTimeout`. */
    method OnSplashFinished()
      requires appState == Splash
      modifies this
      ensures appState == InitialRoute(prefs.PinCode(), prefs.IsAppLockEnabled(), prefs.IsSetupDone())
      ensures shouldLockApp == old(shouldLockApp) && lastBackgroundTimestamp == old(lastBackgroundTimestamp)
    {
      if prefs.PinCode().Some? && prefs.IsAppLockEnabled() {
        appState := Locked;
      } else if !prefs.IsSetupDone() {
        appState := Setup;
      } else {
        appState := Home;
      }
    }

    method OnUnlock()
      requires appState == Locked
      modifies this
      ensures appState == Home
      ensures shouldLockApp == old(shouldLockApp) && lastBackgroundTimestamp == old(lastBackgroundTimestamp)
    {
      appState := Home;
    }

    method OnRequestPinReset()
      requires appState == Locked
      modifies this
      ensures appState == PinSetup
      ensures shouldLockApp == old(shouldLockApp) && lastBackgroundTimestamp == old(lastBackgroundTimestamp)
    {
      appState := PinSetup;
    }

    /** The PIN-setup screen's `onPinSet`: the new PIN is saved and home is shown. */
    method OnPinSet(newPin: string)
      requires appState == PinSetup && prefs.Valid()
      modifies this, prefs
      ensures prefs.Valid() && prefs.PinCode() == Some(newPin)
      ensures prefs.bools == old(prefs.bools)
      ensures prefs.strings == old(prefs.strings)[PinCodeKey := newPin]
      ensures appState == Home
      ensures shouldLockApp == old(shouldLockApp) && lastBackgroundTimestamp == old(lastBackgroundTimestamp)
    {
      prefs.SetPinCode(Some(newPin));
      appState := Home;
    }

    method SaveInitialTransaction(amount: real, accountId: int, now: int)
      requires repository.db.Valid()
      modifies repository.db
      ensures repository.db.Valid()
      ensures repository.db.transactions == old(repository.db.transactions).InsertReplace(OpeningTransaction(amount, accountId, now))
      ensures repository.db.accounts == old(repository.db.accounts)
      ensures repository.db.upcoming == old(repository.db.upcoming)
      ensures TotalBalance(repository.db.Snapshot()) == old(TotalBalance(repository.db.Snapshot())) + amount
    {
      var ok := repository.AddTransaction(OpeningTransaction(amount, accountId, now));
    }

    /**
     * The setup wizard's `onComplete(cash, bank)`: seed the default accounts,
     * record each positive opening balance, mark setup done and go home.
     */
    method OnSetupComplete(cash: real, bank: real, now: int)
      requires appState == Setup && Valid()
      modifies this, prefs, repository.db
      ensures Valid()
      ensures repository.db.accounts == Seeded(old(repository.db.accounts))
      ensures repository.db.upcoming == old(repository.db.upcoming)
      ensures TotalBalance(repository.db.Snapshot()) == old(TotalBalance(repository.db.Snapshot())) + OpeningTotal(cash, bank)
      ensures cash <= 0.0 && bank <= 0.0 ==> repository.db.transactions == old(repository.db.transactions)
      ensures |repository.db.transactions.rows| ==
                |old(repository.db.transactions.rows)| + (if cash > 0.0 then 1 else 0) + (if bank > 0.0 then 1 else 0)
      ensures prefs.IsSetupDone() && prefs.strings == old(prefs.strings)
      ensures prefs.bools == old(prefs.bools)[SetupDoneKey := true]
      ensures appState == Home
    {
      repository.InitDefaultAccounts();
      if cash > 0.0 {
        CountAfterFreshInsert(repository.db.transactions, OpeningTransaction(cash, CashAccountId, now));
        SaveInitialTransaction(cash, CashAccountId, now);
      }
      if bank > 0.0 {
        CountAfterFreshInsert(repository.db.transactions, OpeningTransaction(bank, BankAccountId, now));
        SaveInitialTransaction(bank, BankAccountId, now);
      }
      prefs.SetSetupDone(true);
      appState := Home;
    }
  }

  /** An id-less insert adds one row. */
  lemma CountAfterFreshInsert<D>(t: Table<D>, r: Row<D>)
    requires t.Valid() && r.id == 0
    ensures |t.InsertReplace(r).rows| == |t.rows| + 1
  {
    var k := t.AssignedId(r);
    assert t.InsertReplace(r).rows.Keys == t.rows.Keys + {k};
  }
}
