/** The ledger as a value: the state a wallet service holds and the effect of
    each of its state-changing operations, as pure functions. The class
    Wallet.Service runs these operations in place and is proved to agree with
    them; the lemmas here state the ledger rules they keep. */
module Ledger {
  import opened Types

  /** The service state: the account-ID counter and the three collections in
      insertion order. */
  datatype Store = Store(nextAccountID: int, accounts: seq<Account>, payments: seq<Payment>, favorites: seq<Favorite>)

  /** The zero value of the service: no records and the counter at 0. */
  const Empty: Store := Store(0, [], [], [])

  predicate HasAccount(accounts: seq<Account>, id: int) {
    exists i :: 0 <= i < |accounts| && accounts[i].id == id
  }

  predicate HasPayment(payments: seq<Payment>, id: string) {
    exists i :: 0 <= i < |payments| && payments[i].id == id
  }

  predicate HasFavorite(favorites: seq<Favorite>, id: string) {
    exists i :: 0 <= i < |favorites| && favorites[i].id == id
  }

  predicate PhoneTaken(accounts: seq<Account>, phone: string) {
    exists i :: 0 <= i < |accounts| && accounts[i].phone == phone
  }

  /** Position of the first account with the given ID: the record a linear
      scan with early return finds. */
  function AccountIndex(accounts: seq<Account>, id: int): (r: Option<nat>)
    ensures r.Some? <==> HasAccount(accounts, id)
    ensures r.Some? ==> r.value < |accounts| && accounts[r.value].id == id
    ensures r.Some? ==> forall j :: 0 <= j < r.value ==> accounts[j].id != id
  {
    if |accounts| == 0 then None
    else if accounts[0].id == id then Some(0)
    else match AccountIndex(accounts[1..], id)
      case None => None
      case Some(k) => Some(k + 1)
  }

  /** Position of the first payment with the given ID. */
  function PaymentIndex(payments: seq<Payment>, id: string): (r: Option<nat>)
    ensures r.Some? <==> HasPayment(payments, id)
    ensures r.Some? ==> r.value < |payments| && payments[r.value].id == id
    ensures r.Some? ==> forall j :: 0 <= j < r.value ==> payments[j].id != id
  {
    if |payments| == 0 then None
    else if payments[0].id == id then Some(0)
    else match PaymentIndex(payments[1..], id)
      case None => None
      case Some(k) => Some(k + 1)
  }

  /** Position of the first favorite with the given ID. */
  function FavoriteIndex(favorites: seq<Favorite>, id: string): (r: Option<nat>)
    ensures r.Some? <==> HasFavorite(favorites, id)
    ensures r.Some? ==> r.value < |favorites| && favorites[r.value].id == id
    ensures r.Some? ==> forall j :: 0 <= j < r.value ==> favorites[j].id != id
  {
    if |favorites| == 0 then None
    else if favorites[0].id == id then Some(0)
    else match FavoriteIndex(favorites[1..], id)
      case None => None
      case Some(k) => Some(k + 1)
  }

  /** A position holding the ID with no earlier one holding it is the one
      the scan finds. */
  lemma AccountIndexAt(accounts: seq<Account>, id: int, k: nat)
    requires k < |accounts| && accounts[k].id == id
    requires forall j :: 0 <= j < k ==> accounts[j].id != id
    ensures AccountIndex(accounts, id) == Some(k)
  {
    assert HasAccount(accounts, id);
  }

  lemma PaymentIndexAt(payments: seq<Payment>, id: string, k: nat)
    requires k < |payments| && payments[k].id == id
    requires forall j :: 0 <= j < k ==> payments[j].id != id
    ensures PaymentIndex(payments, id) == Some(k)
  {
    assert HasPayment(payments, id);
  }

  lemma FavoriteIndexAt(favorites: seq<Favorite>, id: string, k: nat)
    requires k < |favorites| && favorites[k].id == id
    requires forall j :: 0 <= j < k ==> favorites[j].id != id
    ensures FavoriteIndex(favorites, id) == Some(k)
  {
    assert HasFavorite(favorites, id);
  }

  /** The accounts with the balance of the k-th one moved by delta. */
  function Credit(accounts: seq<Account>, k: nat, delta: Money): (r: seq<Account>)
    requires k < |accounts|
    ensures |r| == |accounts|
    ensures r[k] == accounts[k].(balance := accounts[k].balance + delta)
    ensures forall j :: 0 <= j < |r| && j != k ==> r[j] == accounts[j]
  {
    accounts[k := accounts[k].(balance := accounts[k].balance + delta)]
  }

  /** RegisterAccount: a phone already present is refused and nothing changes;
      otherwise the counter moves on by one and exactly one account is
      appended, carrying the new counter value, the phone and balance 0. */
  function RegisterAccount(s: Store, phone: string): (out: (Store, Result<Account>))
    ensures PhoneTaken(s.accounts, phone) ==> out == (s, Failure(ErrPhoneRegistered))
    ensures !PhoneTaken(s.accounts, phone) ==>
      && out.1 == Success(Account(s.nextAccountID + 1, phone, 0))
      && out.0.nextAccountID == s.nextAccountID + 1
      && out.0.accounts == s.accounts + [out.1.value]
      && out.0.payments == s.payments && out.0.favorites == s.favorites
  {
    if PhoneTaken(s.accounts, phone) then (s, Failure(ErrPhoneRegistered))
    else
      var account := Account(s.nextAccountID + 1, phone, 0);
      (s.(nextAccountID := account.id, accounts := s.accounts + [account]), Success(account))
  }

  /** Deposit: a non-positive amount is refused before the account is looked
      up; on success only the first account with that ID changes, and only its
      balance, which rises by exactly amount. */
  function Deposit(s: Store, accountID: int, amount: Money): (out: (Store, Outcome))
    ensures amount <= 0 ==> out == (s, Fail(ErrAmountMustBePositive))
    ensures amount > 0 && !HasAccount(s.accounts, accountID) ==> out == (s, Fail(ErrAccountNotFound))
    ensures amount > 0 && HasAccount(s.accounts, accountID) ==>
      && out.1 == Pass
      && out.0 == s.(accounts := Credit(s.accounts, AccountIndex(s.accounts, accountID).value, amount))
  {
    if amount <= 0 then (s, Fail(ErrAmountMustBePositive))
    else match AccountIndex(s.accounts, accountID)
      case None => (s, Fail(ErrAccountNotFound))
      case Some(k) => (s.(accounts := Credit(s.accounts, k, amount)), Pass)
  }

  /** Pay: the checks run in the order amount, account, balance, and every
      refusal leaves the store as it was. On success the first account with
      that ID is debited by exactly amount and one payment is appended, with
      the given fields and status INPROGRESS. paymentID stands for the fresh
      UUID the source draws, so it is not in use yet. */
  function Pay(s: Store, accountID: int, amount: Money, category: string, paymentID: string): (out: (Store, Result<Payment>))
    requires !HasPayment(s.payments, paymentID)
    ensures amount <= 0 ==> out == (s, Failure(ErrAmountMustBePositive))
    ensures amount > 0 && !HasAccount(s.accounts, accountID) ==> out == (s, Failure(ErrAccountNotFound))
    ensures amount > 0 && HasAccount(s.accounts, accountID) ==>
      var k := AccountIndex(s.accounts, accountID).value;
      && (s.accounts[k].balance < amount ==> out == (s, Failure(ErrNotEnoughBalance)))
      && (s.accounts[k].balance >= amount ==>
            && out.1 == Success(Payment(paymentID, accountID, amount, category, StatusInProgress))
            && out.0 == s.(accounts := Credit(s.accounts, k, -amount), payments := s.payments + [out.1.value])
            && out.0.accounts[k].balance >= 0)
  {
    if amount <= 0 then (s, Failure(ErrAmountMustBePositive))
    else match AccountIndex(s.accounts, accountID)
      case None => (s, Failure(ErrAccountNotFound))
      case Some(k) =>
        if s.accounts[k].balance < amount then (s, Failure(ErrNotEnoughBalance))
        else
          var payment := Payment(paymentID, accountID, amount, category, StatusInProgress);
          (s.(accounts := Credit(s.accounts, k, -amount), payments := s.payments + [payment]), Success(payment))
  }

  /** Reject: an unknown payment, or a payment whose account is gone, is
      refused with nothing changed. Otherwise the first payment with that ID
      gets status FAIL and its owner is credited its amount. The prior status
      is not examined. */
  function Reject(s: Store, paymentID: string): (out: (Store, Outcome))
    ensures !HasPayment(s.payments, paymentID) ==> out == (s, Fail(ErrPaymentNotFound))
    ensures HasPayment(s.payments, paymentID) ==>
      var i := PaymentIndex(s.payments, paymentID).value;
      var p := s.payments[i];
      && (!HasAccount(s.accounts, p.accountID) ==> out == (s, Fail(ErrAccountNotFound)))
      && (HasAccount(s.accounts, p.accountID) ==>
            && out.1 == Pass
            && out.0 == s.(payments := s.payments[i := p.(status := StatusFail)],
                           accounts := Credit(s.accounts, AccountIndex(s.accounts, p.accountID).value, p.amount)))
  {
    match PaymentIndex(s.payments, paymentID)
    case None => (s, Fail(ErrPaymentNotFound))
    case Some(i) =>
      var p := s.payments[i];
      match AccountIndex(s.accounts, p.accountID)
      case None => (s, Fail(ErrAccountNotFound))
      case Some(k) =>
        (s.(payments := s.payments[i := p.(status := StatusFail)], accounts := Credit(s.accounts, k, p.amount)), Pass)
  }

  /** FavoritePayment: an unknown payment is refused; otherwise one favorite is
      appended that copies the payment's account, amount and category and
      carries the given name. Accounts and payments do not change.
      favoriteID stands for the fresh UUID the source draws. */
  function FavoritePayment(s: Store, paymentID: string, name: string, favoriteID: string): (out: (Store, Result<Favorite>))
    requires !HasFavorite(s.favorites, favoriteID)
    ensures !HasPayment(s.payments, paymentID) ==> out == (s, Failure(ErrPaymentNotFound))
    ensures HasPayment(s.payments, paymentID) ==>
      var p := s.payments[PaymentIndex(s.payments, paymentID).value];
      && out.1 == Success(Favorite(favoriteID, p.accountID, name, p.amount, p.category))
      && out.0 == s.(favorites := s.favorites + [out.1.value])
  {
    match PaymentIndex(s.payments, paymentID)
    case None => (s, Failure(ErrPaymentNotFound))
    case Some(i) =>
      var p := s.payments[i];
      var favorite := Favorite(favoriteID, p.accountID, name, p.amount, p.category);
      (s.(favorites := s.favorites + [favorite]), Success(favorite))
  }

  /** Repeat: an unknown payment is refused; otherwise a new payment is made
      with the account, amount and category of the first payment with that
      ID, under the same checks as Pay. newID stands for the fresh UUID. */
  function Repeat(s: Store, paymentID: string, newID: string): (out: (Store, Result<Payment>))
    requires !HasPayment(s.payments, newID)
    ensures !HasPayment(s.payments, paymentID) ==> out == (s, Failure(ErrPaymentNotFound))
    ensures HasPayment(s.payments, paymentID) ==>
      var p := s.payments[PaymentIndex(s.payments, paymentID).value];
      && (p.amount <= 0 ==> out == (s, Failure(ErrAmountMustBePositive)))
      && (p.amount > 0 && !HasAccount(s.accounts, p.accountID) ==> out == (s, Failure(ErrAccountNotFound)))
      && (p.amount > 0 && HasAccount(s.accounts, p.accountID) ==>
            var k := AccountIndex(s.accounts, p.accountID).value;
            && (s.accounts[k].balance < p.amount ==> out == (s, Failure(ErrNotEnoughBalance)))
            && (s.accounts[k].balance >= p.amount ==>
                  && out.1 == Success(Payment(newID, p.accountID, p.amount, p.category, StatusInProgress))
                  && out.0 == s.(accounts := Credit(s.accounts, k, -p.amount), payments := s.payments + [out.1.value])))
  {
    match PaymentIndex(s.payments, paymentID)
    case None => (s, Failure(ErrPaymentNotFound))
    case Some(i) =>
      var p := s.payments[i];
      Pay(s, p.accountID, p.amount, p.category, newID)
  }

  /** PayFromFavorite: an unknown favorite is refused; otherwise a payment is
      made with the account, amount and category of the first favorite with
      that ID, under the same checks as Pay. */
  function PayFromFavorite(s: Store, favoriteID: string, newID: string): (out: (Store, Result<Payment>))
    requires !HasPayment(s.payments, newID)
    ensures !HasFavorite(s.favorites, favoriteID) ==> out == (s, Failure(ErrFavoriteNotFound))
    ensures HasFavorite(s.favorites, favoriteID) ==>
      var f := s.favorites[FavoriteIndex(s.favorites, favoriteID).value];
      && (f.amount <= 0 ==> out == (s, Failure(ErrAmountMustBePositive)))
      && (f.amount > 0 && !HasAccount(s.accounts, f.accountID) ==> out == (s, Failure(ErrAccountNotFound)))
      && (f.amount > 0 && HasAccount(s.accounts, f.accountID) ==>
            var k := AccountIndex(s.accounts, f.accountID).value;
            && (s.accounts[k].balance < f.amount ==> out == (s, Failure(ErrNotEnoughBalance)))
            && (s.accounts[k].balance >= f.amount ==>
                  && out.1 == Success(Payment(newID, f.accountID, f.amount, f.category, StatusInProgress))
                  && out.0 == s.(accounts := Credit(s.accounts, k, -f.amount), payments := s.payments + [out.1.value])))
  {
    match FavoriteIndex(s.favorites, favoriteID)
    case None => (s, Failure(ErrFavoriteNotFound))
    case Some(i) =>
      var f := s.favorites[i];
      Pay(s, f.accountID, f.amount, f.category, newID)
  }

  /** The ledger rules that hold of every store built from the zero value by
      the operations above: IDs 1, 2, ... in order with the counter at the
      last one, unique phones, non-negative balances, unique payment and
      favorite IDs, positive amounts referring to registered accounts, and
      payment statuses INPROGRESS or FAIL. The directory import can break
      them; nothing in the source checks them. Under them every payment and
      every favorite names an account that the lookup finds, at position
      ID - 1. */
  predicate Valid(s: Store)
    ensures Valid(s) ==> forall i {:trigger AccountIndex(s.accounts, s.payments[i].accountID)} :: 0 <= i < |s.payments| ==>
              AccountIndex(s.accounts, s.payments[i].accountID) == Some(s.payments[i].accountID - 1)
    ensures Valid(s) ==> forall i {:trigger AccountIndex(s.accounts, s.favorites[i].accountID)} :: 0 <= i < |s.favorites| ==>
              AccountIndex(s.accounts, s.favorites[i].accountID) == Some(s.favorites[i].accountID - 1)
  {
    var rules :=
      && s.nextAccountID == |s.accounts|
      && (forall i :: 0 <= i < |s.accounts| ==> s.accounts[i].id == i + 1 && s.accounts[i].balance >= 0)
      && (forall i, j :: 0 <= i < j < |s.accounts| ==> s.accounts[i].phone != s.accounts[j].phone)
      && (forall i, j :: 0 <= i < j < |s.payments| ==> s.payments[i].id != s.payments[j].id)
      && (forall i, j :: 0 <= i < j < |s.favorites| ==> s.favorites[i].id != s.favorites[j].id)
      && (forall i :: 0 <= i < |s.payments| ==>
            && 0 < s.payments[i].amount
            && 1 <= s.payments[i].accountID <= |s.accounts|
            && (s.payments[i].status == StatusInProgress || s.payments[i].status == StatusFail))
      && (forall i :: 0 <= i < |s.favorites| ==>
            0 < s.favorites[i].amount && 1 <= s.favorites[i].accountID <= |s.accounts|);
    assert rules ==> forall id :: 1 <= id <= |s.accounts| ==> AccountIndex(s.accounts, id) == Some(id - 1) by {
      if rules {
        forall id | 1 <= id <= |s.accounts| ensures AccountIndex(s.accounts, id) == Some(id - 1) {
          AccountIndexAt(s.accounts, id, id - 1);
        }
      }
    }
    rules
  }

  lemma EmptyValid()
    ensures Valid(Empty)
  {
  }

  /** In a valid store the account with ID id sits at position id - 1. */
  lemma ValidAccountIndex(s: Store, id: int)
    requires Valid(s)
    ensures HasAccount(s.accounts, id) <==> 1 <= id <= |s.accounts|
    ensures HasAccount(s.accounts, id) ==> AccountIndex(s.accounts, id) == Some(id - 1)
  {
    if 1 <= id <= |s.accounts| {
      assert s.accounts[id - 1].id == id;
    }
  }

  /** Registration keeps the ledger rules; in particular the new account's ID
      is one more than the number of accounts before it. */
  lemma RegisterKeepsValid(s: Store, phone: string)
    requires Valid(s)
    ensures Valid(RegisterAccount(s, phone).0)
    ensures RegisterAccount(s, phone).1.Success? ==> RegisterAccount(s, phone).1.value.id == |s.accounts| + 1
  {
  }

  lemma DepositKeepsValid(s: Store, accountID: int, amount: Money)
    requires Valid(s)
    ensures Valid(Deposit(s, accountID, amount).0)
  {
    ValidAccountIndex(s, accountID);
  }

  /** Paying keeps the ledger rules, non-negative balances among them. */
  lemma PayKeepsValid(s: Store, accountID: int, amount: Money, category: string, paymentID: string)
    requires Valid(s) && !HasPayment(s.payments, paymentID)
    ensures Valid(Pay(s, accountID, amount, category, paymentID).0)
  {
    ValidAccountIndex(s, accountID);
    var (s', r) := Pay(s, accountID, amount, category, paymentID);
    if r.Success? {
      forall i, j | 0 <= i < j < |s'.payments| ensures s'.payments[i].id != s'.payments[j].id {
        if j == |s.payments| {
          assert s'.payments[i] == s.payments[i];
        }
      }
    }
  }

  lemma RejectKeepsValid(s: Store, paymentID: string)
    requires Valid(s)
    ensures Valid(Reject(s, paymentID).0)
  {
    var (s', r) := Reject(s, paymentID);
    if r.Pass? {
      var i := PaymentIndex(s.payments, paymentID).value;
      ValidAccountIndex(s, s.payments[i].accountID);
      assert forall j :: 0 <= j < |s.payments| ==> s'.payments[j].id == s.payments[j].id;
    }
  }

  lemma FavoriteKeepsValid(s: Store, paymentID: string, name: string, favoriteID: string)
    requires Valid(s) && !HasFavorite(s.favorites, favoriteID)
    ensures Valid(FavoritePayment(s, paymentID, name, favoriteID).0)
  {
    var (s', r) := FavoritePayment(s, paymentID, name, favoriteID);
    if r.Success? {
      forall i, j | 0 <= i < j < |s'.favorites| ensures s'.favorites[i].id != s'.favorites[j].id {
        if j == |s.favorites| {
          assert s'.favorites[i] == s.favorites[i];
        }
      }
    }
  }

  /** A payment followed by the rejection of that payment leaves every
      balance exactly as it was; the payment stays, with status FAIL. */
  lemma PayThenRejectRestoresBalances(s: Store, accountID: int, amount: Money, category: string, paymentID: string)
    requires !HasPayment(s.payments, paymentID)
    requires Pay(s, accountID, amount, category, paymentID).1.Success?
    ensures var (paid, p) := Pay(s, accountID, amount, category, paymentID);
            Reject(paid, paymentID) == (s.(payments := s.payments + [p.value.(status := StatusFail)]), Pass)
  {
    var (paid, p) := Pay(s, accountID, amount, category, paymentID);
    var k := PaidLookups(s, accountID, amount, category, paymentID);
    assert Credit(paid.accounts, k, amount) == s.accounts;
    assert paid.payments[|s.payments| := p.value.(status := StatusFail)] == s.payments + [p.value.(status := StatusFail)];
  }

  /** After a successful payment the new payment sits at the end of the list and
      the payer's account is still found at the same place. */
  lemma PaidLookups(s: Store, accountID: int, amount: Money, category: string, paymentID: string) returns (k: nat)
    requires !HasPayment(s.payments, paymentID)
    requires Pay(s, accountID, amount, category, paymentID).1.Success?
    ensures var (paid, p) := Pay(s, accountID, amount, category, paymentID);
            && k < |s.accounts|
            && paid.accounts == Credit(s.accounts, k, -amount)
            && paid.payments == s.payments + [p.value]
            && PaymentIndex(paid.payments, paymentID) == Some(|s.payments|)
            && AccountIndex(paid.accounts, accountID) == Some(k)
  {
    var (paid, p) := Pay(s, accountID, amount, category, paymentID);
    k := AccountIndex(s.accounts, accountID).value;
    assert PaymentIndex(paid.payments, paymentID) == Some(|s.payments|) by {
      assert paid.payments[|s.payments|].id == paymentID;
      assert forall j :: 0 <= j < |s.payments| ==> paid.payments[j] == s.payments[j];
    }
    assert AccountIndex(paid.accounts, accountID) == Some(k) by {
      assert forall j :: 0 <= j < |paid.accounts| ==> paid.accounts[j].id == s.accounts[j].id;
    }
  }


  /** Reject does not look at the prior status: rejecting the same payment a
      second time succeeds again and credits its amount a second time. */
  lemma RejectTwiceCreditsTwice(s: Store, paymentID: string)
    requires Reject(s, paymentID).1.Pass?
    ensures var once := Reject(s, paymentID).0;
            var p := s.payments[PaymentIndex(s.payments, paymentID).value];
            var k := AccountIndex(s.accounts, p.accountID).value;
            && Reject(once, paymentID).1.Pass?
            && Reject(once, paymentID).0.accounts[k].balance == s.accounts[k].balance + 2 * p.amount
  {
    var once := Reject(s, paymentID).0;
    var i := PaymentIndex(s.payments, paymentID).value;
    var p := s.payments[i];
    var k := AccountIndex(s.accounts, p.accountID).value;
    assert PaymentIndex(once.payments, paymentID) == Some(i) by {
      assert forall j :: 0 <= j < |once.payments| ==> once.payments[j].id == s.payments[j].id;
    }
    assert AccountIndex(once.accounts, p.accountID) == Some(k) by {
      assert forall j :: 0 <= j < |once.accounts| ==> once.accounts[j].id == s.accounts[j].id;
    }
  }

  /** Repeat of a known payment is Pay applied to that payment's account,
      amount and category under the new ID. */
  lemma RepeatIsPay(s: Store, paymentID: string, newID: string)
    requires !HasPayment(s.payments, newID) && HasPayment(s.payments, paymentID)
    ensures var p := s.payments[PaymentIndex(s.payments, paymentID).value];
            Repeat(s, paymentID, newID) == Pay(s, p.accountID, p.amount, p.category, newID)
  {
  }

  /** PayFromFavorite of a known favorite is Pay applied to that favorite's
      account, amount and category under the new ID. */
  lemma PayFromFavoriteIsPay(s: Store, favoriteID: string, newID: string)
    requires !HasPayment(s.payments, newID) && HasFavorite(s.favorites, favoriteID)
    ensures var f := s.favorites[FavoriteIndex(s.favorites, favoriteID).value];
            PayFromFavorite(s, favoriteID, newID) == Pay(s, f.accountID, f.amount, f.category, newID)
  {
  }

  /** A successful repeat appends a copy of the original payment (same
      account, amount and category) under the new ID with status INPROGRESS,
      leaves the original untouched and debits its account once more. */
  lemma RepeatCopies(s: Store, paymentID: string, newID: string)
    requires !HasPayment(s.payments, newID)
    requires Repeat(s, paymentID, newID).1.Success?
    ensures HasPayment(s.payments, paymentID)
    ensures var p := s.payments[PaymentIndex(s.payments, paymentID).value];
            var (s', r) := Repeat(s, paymentID, newID);
            var k := AccountIndex(s.accounts, p.accountID).value;
            && r.value == p.(id := newID, status := StatusInProgress)
            && s'.payments == s.payments + [r.value]
            && s'.favorites == s.favorites && s'.nextAccountID == s.nextAccountID
            && HasAccount(s.accounts, p.accountID)
            && s'.accounts == Credit(s.accounts, k, -p.amount)
  {
  }

  /** Repeat of a known payment refuses exactly as Pay does on that payment's
      account and amount, in the same order and without changing anything. */
  lemma RepeatRefusals(s: Store, paymentID: string, newID: string)
    requires !HasPayment(s.payments, newID) && HasPayment(s.payments, paymentID)
    ensures var p := s.payments[PaymentIndex(s.payments, paymentID).value];
            var out := Repeat(s, paymentID, newID);
            && (p.amount <= 0 ==> out == (s, Failure(ErrAmountMustBePositive)))
            && (p.amount > 0 && !HasAccount(s.accounts, p.accountID) ==> out == (s, Failure(ErrAccountNotFound)))
            && (p.amount > 0 && HasAccount(s.accounts, p.accountID) &&
                s.accounts[AccountIndex(s.accounts, p.accountID).value].balance < p.amount
                ==> out == (s, Failure(ErrNotEnoughBalance)))
  {
  }

  /** PayFromFavorite of a known favorite refuses exactly as Pay does on that
      favorite's account and amount, without changing anything. */
  lemma PayFromFavoriteRefusals(s: Store, favoriteID: string, newID: string)
    requires !HasPayment(s.payments, newID) && HasFavorite(s.favorites, favoriteID)
    ensures var f := s.favorites[FavoriteIndex(s.favorites, favoriteID).value];
            var out := PayFromFavorite(s, favoriteID, newID);
            && (f.amount <= 0 ==> out == (s, Failure(ErrAmountMustBePositive)))
            && (f.amount > 0 && !HasAccount(s.accounts, f.accountID) ==> out == (s, Failure(ErrAccountNotFound)))
            && (f.amount > 0 && HasAccount(s.accounts, f.accountID) &&
                s.accounts[AccountIndex(s.accounts, f.accountID).value].balance < f.amount
                ==> out == (s, Failure(ErrNotEnoughBalance)))
  {
  }

  /** A successful payment from a favorite appends an INPROGRESS payment with
      the favorite's account, amount and category under the new ID and debits
      that account by the amount; the favorites stay as they were. */
  lemma PayFromFavoriteCopies(s: Store, favoriteID: string, newID: string)
    requires !HasPayment(s.payments, newID)
    requires PayFromFavorite(s, favoriteID, newID).1.Success?
    ensures HasFavorite(s.favorites, favoriteID)
    ensures var f := s.favorites[FavoriteIndex(s.favorites, favoriteID).value];
            var (s', r) := PayFromFavorite(s, favoriteID, newID);
            && r.value == Payment(newID, f.accountID, f.amount, f.category, StatusInProgress)
            && s'.payments == s.payments + [r.value]
            && s'.favorites == s.favorites && s'.nextAccountID == s.nextAccountID
            && HasAccount(s.accounts, f.accountID)
            && s'.accounts == Credit(s.accounts, AccountIndex(s.accounts, f.accountID).value, -f.amount)
  {
  }

  lemma RepeatKeepsValid(s: Store, paymentID: string, newID: string)
    requires Valid(s) && !HasPayment(s.payments, newID)
    ensures Valid(Repeat(s, paymentID, newID).0)
  {
    if HasPayment(s.payments, paymentID) {
      var p := s.payments[PaymentIndex(s.payments, paymentID).value];
      PayKeepsValid(s, p.accountID, p.amount, p.category, newID);
    }
  }

  lemma PayFromFavoriteKeepsValid(s: Store, favoriteID: string, newID: string)
    requires Valid(s) && !HasPayment(s.payments, newID)
    ensures Valid(PayFromFavorite(s, favoriteID, newID).0)
  {
    if HasFavorite(s.favorites, favoriteID) {
      var f := s.favorites[FavoriteIndex(s.favorites, favoriteID).value];
      PayKeepsValid(s, f.accountID, f.amount, f.category, newID);
    }
  }

  /** Paying from a favorite just made from a payment does what repeating that
      payment does; the only difference is the favorite that was added. */
  lemma FavoriteThenPayIsRepeat(s: Store, paymentID: string, name: string, favoriteID: string, newID: string)
    requires !HasFavorite(s.favorites, favoriteID) && !HasPayment(s.payments, newID)
    requires FavoritePayment(s, paymentID, name, favoriteID).1.Success?
    ensures var (s1, f) := FavoritePayment(s, paymentID, name, favoriteID);
            var (s2, r) := Repeat(s, paymentID, newID);
            PayFromFavorite(s1, favoriteID, newID) == (s2.(favorites := s1.favorites), r)
  {
    var (s1, f) := FavoritePayment(s, paymentID, name, favoriteID);
    assert FavoriteIndex(s1.favorites, favoriteID) == Some(|s.favorites|) by {
      assert s1.favorites[|s.favorites|].id == favoriteID;
      assert forall j :: 0 <= j < |s.favorites| ==> s1.favorites[j] == s.favorites[j];
    }
  }

  /** Registers the phones one after another, collecting the results. */
  function RegisterAll(s: Store, phones: seq<string>): (Store, seq<Result<Account>>)
    decreases |phones|
  {
    if |phones| == 0 then (s, [])
    else
      var (s1, r) := RegisterAccount(s, phones[0]);
      var (s2, rs) := RegisterAll(s1, phones[1..]);
      (s2, [r] + rs)
  }

  /** Registering distinct, not yet registered phones succeeds every time and
      hands out the IDs after the counter, consecutively and in order. */
  lemma {:induction false} RegisterAllConsecutive(s: Store, phones: seq<string>)
    requires forall i, j :: 0 <= i < j < |phones| ==> phones[i] != phones[j]
    requires forall i :: 0 <= i < |phones| ==> !PhoneTaken(s.accounts, phones[i])
    ensures var (s', rs) := RegisterAll(s, phones);
            && |rs| == |phones|
            && (forall i :: 0 <= i < |rs| ==> rs[i] == Success(Account(s.nextAccountID + i + 1, phones[i], 0)))
            && s'.nextAccountID == s.nextAccountID + |phones|
    decreases |phones|
  {
    if |phones| > 0 {
      var (s1, r) := RegisterAccount(s, phones[0]);
      forall i | 0 <= i < |phones[1..]| ensures !PhoneTaken(s1.accounts, phones[1..][i]) {
        assert phones[1..][i] == phones[i + 1] != phones[0];
        assert s1.accounts == s.accounts + [Account(s.nextAccountID + 1, phones[0], 0)];
      }
      RegisterAllConsecutive(s1, phones[1..]);
    }
  }
}
