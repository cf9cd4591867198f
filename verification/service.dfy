/** The wallet service: the state and the methods of the Go Service type.
    Records the source reaches through pointers are positions in the field
    sequences, and an update through a pointer is an update at that position.
    Each method is proved against the store function it implements. */
module Wallet {
  import opened Types
  import opened Decimal
  import opened Text
  import opened Ledger
  import opened Codec
  import opened Aggregation

  class Service {
    var nextAccountID: int
    var accounts: seq<Account>
    var payments: seq<Payment>
    var favorites: seq<Favorite>

    /** The state as a store value. */
    function Snapshot(): Store
      reads this
    {
      Store(nextAccountID, accounts, payments, favorites)
    }

    /** The zero value of the Go struct: no records, counter at 0. */
    constructor ()
      ensures Snapshot() == Empty
    {
      nextAccountID := 0;
      accounts := [];
      payments := [];
      favorites := [];
    }

    /** The loop over accounts that stops at the first one with the ID. */
    method IndexOfAccount(id: int) returns (r: Option<nat>)
      ensures r == AccountIndex(accounts, id)
    {
      var i := 0;
      while i < |accounts|
        invariant 0 <= i <= |accounts|
        invariant forall j :: 0 <= j < i ==> accounts[j].id != id
      {
        if accounts[i].id == id {
          return Some(i);
        }
        i := i + 1;
      }
      return None;
    }

    method IndexOfPayment(id: string) returns (r: Option<nat>)
      ensures r == PaymentIndex(payments, id)
    {
      var i := 0;
      while i < |payments|
        invariant 0 <= i <= |payments|
        invariant forall j :: 0 <= j < i ==> payments[j].id != id
      {
        if payments[i].id == id {
          return Some(i);
        }
        i := i + 1;
      }
      return None;
    }

    method IndexOfFavorite(id: string) returns (r: Option<nat>)
      ensures r == FavoriteIndex(favorites, id)
    {
      var i := 0;
      while i < |favorites|
        invariant 0 <= i <= |favorites|
        invariant forall j :: 0 <= j < i ==> favorites[j].id != id
      {
        if favorites[i].id == id {
          return Some(i);
        }
        i := i + 1;
      }
      return None;
    }

    /** RegisterAccount: refuses a phone that is already registered, otherwise
        advances the counter and appends an account with that ID and balance 0. */
    method RegisterAccount(phone: string) returns (r: Result<Account>)
      modifies this
      ensures (Snapshot(), r) == Ledger.RegisterAccount(old(Snapshot()), phone)
    {
      var i := 0;
      while i < |accounts|
        invariant 0 <= i <= |accounts|
        invariant forall j :: 0 <= j < i ==> accounts[j].phone != phone
      {
        if accounts[i].phone == phone {
          return Failure(ErrPhoneRegistered);
        }
        i := i + 1;
      }
      nextAccountID := nextAccountID + 1;
      var account := Account(nextAccountID, phone, 0);
      accounts := accounts + [account];
      r := Success(account);
    }

    /** FindAccountByID: the first account with the ID, or ErrAccountNotFound. */
    method FindAccountByID(accountID: int) returns (r: Result<Account>)
      ensures r.Success? <==> HasAccount(accounts, accountID)
      ensures r.Success? ==> r.value == accounts[AccountIndex(accounts, accountID).value] && r.value.id == accountID
      ensures r.Failure? ==> r.error == ErrAccountNotFound
    {
      var k := IndexOfAccount(accountID);
      if k.None? {
        return Failure(ErrAccountNotFound);
      }
      r := Success(accounts[k.value]);
    }

    /** Deposit: refuses a non-positive amount, then an unknown account;
        otherwise adds the amount to the first account with the ID. */
    method Deposit(accountID: int, amount: Money) returns (e: Outcome)
      modifies this
      ensures (Snapshot(), e) == Ledger.Deposit(old(Snapshot()), accountID, amount)
    {
      if amount <= 0 {
        return Fail(ErrAmountMustBePositive);
      }
      var k := IndexOfAccount(accountID);
      if k.None? {
        return Fail(ErrAccountNotFound);
      }
      var i := k.value;
      accounts := accounts[i := accounts[i].(balance := accounts[i].balance + amount)];
      e := Pass;
    }

    /** Pay: refuses a non-positive amount, an unknown account, then a balance
        below the amount; otherwise debits the account and appends the payment
        with status INPROGRESS. paymentID is the fresh UUID. */
    method Pay(accountID: int, amount: Money, category: string, paymentID: string) returns (r: Result<Payment>)
      requires !HasPayment(payments, paymentID)
      modifies this
      ensures (Snapshot(), r) == Ledger.Pay(old(Snapshot()), accountID, amount, category, paymentID)
    {
      if amount <= 0 {
        return Failure(ErrAmountMustBePositive);
      }
      var k := IndexOfAccount(accountID);
      if k.None? {
        return Failure(ErrAccountNotFound);
      }
      var i := k.value;
      if accounts[i].balance < amount {
        return Failure(ErrNotEnoughBalance);
      }
      accounts := accounts[i := accounts[i].(balance := accounts[i].balance - amount)];
      var payment := Payment(paymentID, accountID, amount, category, StatusInProgress);
      payments := payments + [payment];
      r := Success(payment);
    }

    /** FindPaymentByID: the first payment with the ID, or ErrPaymentNotFound. */
    method FindPaymentByID(paymentID: string) returns (r: Result<Payment>)
      ensures r.Success? <==> HasPayment(payments, paymentID)
      ensures r.Success? ==> r.value == payments[PaymentIndex(payments, paymentID).value] && r.value.id == paymentID
      ensures r.Failure? ==> r.error == ErrPaymentNotFound
    {
      var k := IndexOfPayment(paymentID);
      if k.None? {
        return Failure(ErrPaymentNotFound);
      }
      r := Success(payments[k.value]);
    }

    /** Reject: marks the payment FAIL and gives its amount back to its account. */
    method Reject(paymentID: string) returns (e: Outcome)
      modifies this
      ensures (Snapshot(), e) == Ledger.Reject(old(Snapshot()), paymentID)
    {
      var pk := IndexOfPayment(paymentID);
      if pk.None? {
        return Fail(ErrPaymentNotFound);
      }
      var i := pk.value;
      var payment := payments[i];
      var ak := IndexOfAccount(payment.accountID);
      if ak.None? {
        return Fail(ErrAccountNotFound);
      }
      var k := ak.value;
      payments := payments[i := payment.(status := StatusFail)];
      accounts := accounts[k := accounts[k].(balance := accounts[k].balance + payment.amount)];
      e := Pass;
    }

    /** Repeat: pays again with the account, amount and category of a payment. */
    method Repeat(paymentID: string, newID: string) returns (r: Result<Payment>)
      requires !HasPayment(payments, newID)
      modifies this
      ensures (Snapshot(), r) == Ledger.Repeat(old(Snapshot()), paymentID, newID)
    {
      var found := FindPaymentByID(paymentID);
      if found.Failure? {
        return Failure(found.error);
      }
      var payment := found.value;
      r := Pay(payment.accountID, payment.amount, payment.category, newID);
    }

    /** FavoritePayment: records a favorite copying a payment's account,
        amount and category under the given name. favoriteID is the fresh UUID. */
    method FavoritePayment(paymentID: string, name: string, favoriteID: string) returns (r: Result<Favorite>)
      requires !HasFavorite(favorites, favoriteID)
      modifies this
      ensures (Snapshot(), r) == Ledger.FavoritePayment(old(Snapshot()), paymentID, name, favoriteID)
    {
      var found := FindPaymentByID(paymentID);
      if found.Failure? {
        return Failure(found.error);
      }
      var payment := found.value;
      var favorite := Favorite(favoriteID, payment.accountID, name, payment.amount, payment.category);
      favorites := favorites + [favorite];
      r := Success(favorite);
    }

    /** FindFavoriteByID: the first favorite with the ID, or ErrFavoriteNotFound. */
    method FindFavoriteByID(favoriteID: string) returns (r: Result<Favorite>)
      ensures r.Success? <==> HasFavorite(favorites, favoriteID)
      ensures r.Success? ==> r.value == favorites[FavoriteIndex(favorites, favoriteID).value] && r.value.id == favoriteID
      ensures r.Failure? ==> r.error == ErrFavoriteNotFound
    {
      var k := IndexOfFavorite(favoriteID);
      if k.None? {
        return Failure(ErrFavoriteNotFound);
      }
      r := Success(favorites[k.value]);
    }

    /** PayFromFavorite: pays with the account, amount and category of a favorite. */
    method PayFromFavorite(favoriteID: string, newID: string) returns (r: Result<Payment>)
      requires !HasPayment(payments, newID)
      modifies this
      ensures (Snapshot(), r) == Ledger.PayFromFavorite(old(Snapshot()), favoriteID, newID)
    {
      var found := FindFavoriteByID(favoriteID);
      if found.Failure? {
        return Failure(found.error);
      }
      var favorite := found.value;
      r := Pay(favorite.accountID, favorite.amount, favorite.category, newID);
    }

    /** ExportToFile: the text written to the file. Each account is appended
        with a trailing '|', and the text kept is the buffer without it. */
    method ExportToFile() returns (text: string)
      ensures text == SingleFileText(accounts)
    {
      var data: string := "";
      text := "";
      for i := 0 to |accounts|
        invariant data == Terminated(Lines(accounts[..i], AccountLine), '|')
        invariant text == SingleFileText(accounts[..i])
      {
        var line := AccountLine(accounts[i]);
        LinesSnoc(accounts, i, AccountLine);
        TerminatedSnoc(Lines(accounts[..i], AccountLine), line, '|');
        JoinSnocTerminated(Lines(accounts[..i], AccountLine), line, '|');
        data := data + line + "|";
        assert data[|data| - 1..] == "|" && data[..|data| - 1] == Terminated(Lines(accounts[..i], AccountLine), '|') + line;
        text := TrimSuffix(data, "|");
      }
      assert accounts[..|accounts|] == accounts;
    }

    /** ImportFromFile: appends one account per '|'-separated segment of the
        text. The ID counter is not touched. */
    method ImportFromFile(text: string)
      requires SingleFileReadable(text)
      modifies this
      ensures accounts == old(accounts) + SingleFileAccounts(text)
      ensures nextAccountID == old(nextAccountID) && payments == old(payments) && favorites == old(favorites)
    {
      var segments := Split(text, '|');
      ghost var imported := SingleFileAccounts(text);
      for i := 0 to |segments|
        invariant accounts == old(accounts) + imported[..i]
        invariant nextAccountID == old(nextAccountID) && payments == old(payments) && favorites == old(favorites)
      {
        var fields := Split(segments[i], ';');
        var id := ValueOf(ParseInt(fields[0]));
        var phone := fields[1];
        var balance := ValueOf(ParseInt(fields[2]));
        SingleFileAccountAt(text, i);
        accounts := accounts + [Account(id, phone, balance)];
        SliceSnoc(imported, 0, i);
      }
      assert imported[..|segments|] == imported;
    }

    /** The text of one dump file: every line followed by '\n'. */
    method DumpText<T>(records: seq<T>, encode: T -> string) returns (data: string)
      ensures data == Terminated(Lines(records, encode), '\n')
    {
      data := "";
      for i := 0 to |records|
        invariant data == Terminated(Lines(records[..i], encode), '\n')
      {
        LinesSnoc(records, i, encode);
        TerminatedSnoc(Lines(records[..i], encode), encode(records[i]), '\n');
        data := data + encode(records[i]) + "\n";
      }
      assert records[..|records|] == records;
    }

    /** Export: writes each non-empty collection to its dump file in dir. */
    method Export(dir: map<string, string>) returns (d: map<string, string>)
      ensures d == ExportDir(Snapshot(), dir)
    {
      d := dir;
      if |accounts| > 0 {
        var data := DumpText(accounts, AccountLine);
        d := d[AccountsFile := data];
      }
      if |payments| > 0 {
        var data := DumpText(payments, PaymentLine);
        d := d[PaymentsFile := data];
      }
      if |favorites| > 0 {
        var data := DumpText(favorites, FavoriteLine);
        d := d[FavoritesFile := data];
      }
    }

    /** One imported account: the first account with its ID takes its phone
        and balance, or else it is appended and the counter advances. */
    method PutAccount(a: Account)
      modifies this
      ensures Snapshot() == UpsertAccount(old(Snapshot()), a)
    {
      var k := IndexOfAccount(a.id);
      if k.Some? {
        var j := k.value;
        accounts := accounts[j := accounts[j].(phone := a.phone, balance := a.balance)];
      } else {
        nextAccountID := nextAccountID + 1;
        accounts := accounts + [a];
      }
    }

    /** One imported payment: the first payment with its ID takes its account,
        amount, category and status, or else it is appended. */
    method PutPayment(p: Payment)
      modifies this
      ensures Snapshot() == UpsertPayment(old(Snapshot()), p)
    {
      var k := IndexOfPayment(p.id);
      if k.Some? {
        var j := k.value;
        payments := payments[j := payments[j].(accountID := p.accountID, amount := p.amount, category := p.category, status := p.status)];
      } else {
        payments := payments + [p];
      }
    }

    /** One imported favorite: the first favorite with its ID takes its
        account, name, amount and category, or else it is appended. */
    method PutFavorite(f: Favorite)
      modifies this
      ensures Snapshot() == UpsertFavorite(old(Snapshot()), f)
    {
      var k := IndexOfFavorite(f.id);
      if k.Some? {
        var j := k.value;
        favorites := favorites[j := favorites[j].(accountID := f.accountID, name := f.name, amount := f.amount, category := f.category)];
      } else {
        favorites := favorites + [f];
      }
    }

    /** The accounts loop of Import: upserts the accounts read until it stops. */
    method ImportAccounts(lines: seq<string>, parse: string -> LineParse<Account>) returns (stop: Stop)
      requires !ScanLines(lines, parse).stop.IndexOutOfRange?
      modifies this
      ensures Snapshot() == UpsertAccounts(old(Snapshot()), ScanLines(lines, parse).records)
      ensures stop == ScanLines(lines, parse).stop
    {
      ghost var target := UpsertAccounts(Snapshot(), ScanLines(lines, parse).records);
      var i := 0;
      while i < |lines| && |lines[i]| > 0
        invariant 0 <= i <= |lines|
        invariant UpsertAccounts(Snapshot(), ScanLines(lines[i..], parse).records) == target
        invariant ScanLines(lines[i..], parse).stop == ScanLines(lines, parse).stop
      {
        ScanStep(lines, i, parse);
        ghost var before := Snapshot();
        match parse(lines[i])
        case Short =>
          assert false;
        case Bad(e) =>
          return ParseFailure(e);
        case Parsed(a) =>
          assert UpsertAccounts(before, ScanLines(lines[i..], parse).records)
                 == UpsertAccounts(UpsertAccount(before, a), ScanLines(lines[i + 1..], parse).records) by {
            var rest := ScanLines(lines[i + 1..], parse).records;
            assert ([a] + rest)[1..] == rest;
          }
          PutAccount(a);
          i := i + 1;
      }
      ScanEnd(lines, i, parse);
      stop := EndOfInput;
    }

    /** The payments loop of Import. */
    method ImportPayments(lines: seq<string>, parse: string -> LineParse<Payment>) returns (stop: Stop)
      requires !ScanLines(lines, parse).stop.IndexOutOfRange?
      modifies this
      ensures Snapshot() == UpsertPayments(old(Snapshot()), ScanLines(lines, parse).records)
      ensures stop == ScanLines(lines, parse).stop
    {
      ghost var target := UpsertPayments(Snapshot(), ScanLines(lines, parse).records);
      var i := 0;
      while i < |lines| && |lines[i]| > 0
        invariant 0 <= i <= |lines|
        invariant UpsertPayments(Snapshot(), ScanLines(lines[i..], parse).records) == target
        invariant ScanLines(lines[i..], parse).stop == ScanLines(lines, parse).stop
      {
        ScanStep(lines, i, parse);
        ghost var before := Snapshot();
        match parse(lines[i])
        case Short =>
          assert false;
        case Bad(e) =>
          return ParseFailure(e);
        case Parsed(p) =>
          assert UpsertPayments(before, ScanLines(lines[i..], parse).records)
                 == UpsertPayments(UpsertPayment(before, p), ScanLines(lines[i + 1..], parse).records) by {
            var rest := ScanLines(lines[i + 1..], parse).records;
            assert ([p] + rest)[1..] == rest;
          }
          PutPayment(p);
          i := i + 1;
      }
      ScanEnd(lines, i, parse);
      stop := EndOfInput;
    }

    /** The favorites loop of Import. */
    method ImportFavorites(lines: seq<string>, parse: string -> LineParse<Favorite>) returns (stop: Stop)
      requires !ScanLines(lines, parse).stop.IndexOutOfRange?
      modifies this
      ensures Snapshot() == UpsertFavorites(old(Snapshot()), ScanLines(lines, parse).records)
      ensures stop == ScanLines(lines, parse).stop
    {
      ghost var target := UpsertFavorites(Snapshot(), ScanLines(lines, parse).records);
      var i := 0;
      while i < |lines| && |lines[i]| > 0
        invariant 0 <= i <= |lines|
        invariant UpsertFavorites(Snapshot(), ScanLines(lines[i..], parse).records) == target
        invariant ScanLines(lines[i..], parse).stop == ScanLines(lines, parse).stop
      {
        ScanStep(lines, i, parse);
        ghost var before := Snapshot();
        match parse(lines[i])
        case Short =>
          assert false;
        case Bad(e) =>
          return ParseFailure(e);
        case Parsed(f) =>
          assert UpsertFavorites(before, ScanLines(lines[i..], parse).records)
                 == UpsertFavorites(UpsertFavorite(before, f), ScanLines(lines[i + 1..], parse).records) by {
            var rest := ScanLines(lines[i + 1..], parse).records;
            assert ([f] + rest)[1..] == rest;
          }
          PutFavorite(f);
          i := i + 1;
      }
      ScanEnd(lines, i, parse);
      stop := EndOfInput;
    }

    /** Import: the accounts, payments and favorites dump files of dir in
        turn; a missing file is skipped and a parse error ends the import. */
    method Import(dir: map<string, string>) returns (e: Outcome)
      requires ImportReadable(dir)
      modifies this
      ensures (Snapshot(), e) == ImportDir(old(Snapshot()), dir)
    {
      if AccountsFile in dir {
        var stop := ImportAccounts(DumpLines(dir[AccountsFile]), ParseAccountLine);
        if stop.ParseFailure? {
          return Fail(stop.error);
        }
      }
      if PaymentsFile in dir {
        var stop := ImportPayments(DumpLines(dir[PaymentsFile]), ParsePaymentLine);
        if stop.ParseFailure? {
          return Fail(stop.error);
        }
      }
      if FavoritesFile in dir {
        var stop := ImportFavorites(DumpLines(dir[FavoritesFile]), ParseFavoriteLine);
        if stop.ParseFailure? {
          return Fail(stop.error);
        }
      }
      e := Pass;
    }

    /** ExportAccountHistory: the payments of a registered account, in order;
        ErrAccountNotFound for an unknown account and ErrPaymentNotFound when
        it has no payments. */
    method ExportAccountHistory(accountID: int) returns (r: Result<seq<Payment>>)
      ensures !HasAccount(accounts, accountID) ==> r == Failure(ErrAccountNotFound)
      ensures HasAccount(accounts, accountID) && |OfAccount(payments, accountID)| == 0 ==> r == Failure(ErrPaymentNotFound)
      ensures HasAccount(accounts, accountID) && |OfAccount(payments, accountID)| > 0 ==> r == Success(OfAccount(payments, accountID))
    {
      var found := FindAccountByID(accountID);
      if found.Failure? {
        return Failure(ErrAccountNotFound);
      }
      var history: seq<Payment> := [];
      for i := 0 to |payments|
        invariant history == OfAccount(payments[..i], accountID)
      {
        assert payments[..i + 1][..i] == payments[..i];
        if payments[i].accountID == accountID {
          history := history + [payments[i]];
        }
      }
      assert payments[..|payments|] == payments;
      if |history| == 0 {
        return Failure(ErrPaymentNotFound);
      }
      r := Success(history);
    }

    /** HistoryToFiles: the files written for the payments, in order. */
    method HistoryToFiles(ps: seq<Payment>, records: int) returns (files: seq<DumpFile>)
      requires records != 0 || |ps| == 0
      ensures files == HistoryFiles(ps, records)
    {
      if |ps| == 0 {
        return [];
      }
      if |ps| <= records {
        var data := DumpText(ps, PaymentLine);
        return [DumpFile(PaymentsFile, data)];
      }
      files := BatchFiles(ps, PaymentLine, records);
    }

    /** The batch loop of HistoryToFiles: each record's line is added to the
        current batch, and the batch is written out when the source's test
        (i + 1) % records == 0 holds or the last record is reached. */
    method BatchFiles<T>(items: seq<T>, encode: T -> string, records: int) returns (files: seq<DumpFile>)
      requires records != 0
      ensures files == Batches(Lines(items, encode), records, 0)
    {
      ghost var lines := Lines(items, encode);
      ghost var start: nat := 0;
      ghost var k: nat := 0;
      var data: string := "";
      files := [];
      BatchLoopStart(lines, records);
      for i := 0 to |items|
        invariant BatchLoop(lines, records, i, start, k, data, files)
      {
        var line := encode(items[i]);
        assert lines[i] == line;
        BatchLoopStep(lines, records, i, start, k, data, files);
        data := data + line + "\n";
        if GoRem(i + 1, records) == 0 || i == |items| - 1 {
          var name := "payments" + FormatInt(GoQuo(i, records) + 1) + ".dump";
          files := files + [DumpFile(name, data)];
          data := "";
          start := i + 1;
          k := k + 1;
        }
      }
      BatchLoopDone(lines, records, start, k, data, files);
    }

    /** The body of one SumPayments goroutine: the total of the payments at
        indices val * num up to val * num + num, stopping at the end of the list. */
    method WorkerTotal(val: nat, num: nat) returns (total: Money)
      ensures total == Total(Slice(payments, num, val))
    {
      var low, high := val * num, val * num + num;
      total := 0;
      var j := low;
      while j < high
        invariant low <= j <= high
        invariant total == Total(payments[Min(|payments|, low)..Min(|payments|, j)])
      {
        if j > |payments| - 1 {
          break;
        }
        SliceStep(payments, low, j, 0);
        total := total + payments[j].amount;
        j := j + 1;
      }
      assert payments[Min(|payments|, low)..Min(|payments|, j)] == Slice(payments, num, val);
    }

    /** The body of one FilterPayments goroutine: the payments of the account
        at indices val * num up to val * num + num, in order. */
    method WorkerFilter(val: nat, num: nat, accountID: int) returns (part: seq<Payment>)
      ensures part == OfAccount(Slice(payments, num, val), accountID)
    {
      var low, high := val * num, val * num + num;
      part := [];
      var j := low;
      while j < high
        invariant low <= j <= high
        invariant part == OfAccount(payments[Min(|payments|, low)..Min(|payments|, j)], accountID)
      {
        if j > |payments| - 1 {
          break;
        }
        SliceStep(payments, low, j, accountID);
        if payments[j].accountID == accountID {
          part := part + [payments[j]];
        }
        j := j + 1;
      }
      assert payments[Min(|payments|, low)..Min(|payments|, j)] == Slice(payments, num, val);
    }

    /** The goroutines of SumPayments, finishing in the given order, each
        adding the total of its slice to the shared sum. */
    method SumWorkers(num: nat, order: seq<nat>) returns (sum: Money)
      ensures sum == Total(Collected(payments, num, order))
    {
      sum := 0;
      for t := 0 to |order|
        invariant sum == Total(Collected(payments, num, order[..t]))
      {
        var total := WorkerTotal(order[t], num);
        CollectedStep(payments, num, order, t, 0);
        sum := sum + total;
      }
      assert order[..|order|] == order;
    }

    /** SumPayments: each goroutine adds up its slice of the payments and adds
        its total to the sum; order is the order in which they do so.
        Whatever the order, the sum is the total of all payments. */
    method SumPayments(goroutines: int, order: seq<nat>) returns (sum: Money)
      requires Schedule(order, Workers(goroutines))
      ensures sum == Total(payments)
    {
      var workers := Workers(goroutines);
      sum := SumWorkers(ChunkSize(|payments|, workers), order);
      AllWorkersCollected(payments, workers, order);
    }

    /** The goroutines of FilterPayments, finishing in the given order, each
        appending the account's payments of its slice to the shared result. */
    method FilterWorkers(accountID: int, num: nat, order: seq<nat>) returns (result: seq<Payment>)
      ensures result == OfAccount(Collected(payments, num, order), accountID)
    {
      result := [];
      for t := 0 to |order|
        invariant result == OfAccount(Collected(payments, num, order[..t]), accountID)
      {
        var part := WorkerFilter(order[t], num, accountID);
        CollectedStep(payments, num, order, t, accountID);
        result := result + part;
      }
      assert order[..|order|] == order;
    }

    /** FilterPayments: ErrPaymentNotFound for an unknown account; otherwise
        each goroutine collects the account's payments in its slice and
        appends them to the result; order is the order in which they do so.
        Whatever the order, the result holds the account's payments, each as
        often as in the list. */
    method FilterPayments(accountID: int, goroutines: int, order: seq<nat>) returns (r: Result<seq<Payment>>)
      requires Schedule(order, Workers(goroutines))
      ensures !HasAccount(accounts, accountID) ==> r == Failure(ErrPaymentNotFound)
      ensures HasAccount(accounts, accountID) ==>
                r.Success? && multiset(r.value) == multiset(OfAccount(payments, accountID))
    {
      var found := FindAccountByID(accountID);
      if found.Failure? {
        return Failure(ErrPaymentNotFound);
      }
      var workers := Workers(goroutines);
      var result := FilterWorkers(accountID, ChunkSize(|payments|, workers), order);
      AllWorkersFiltered(payments, workers, order, accountID);
      r := Success(result);
    }
  }
}
