/** The dump codec: the texts that ExportToFile, Export and HistoryToFiles
    write, the way ImportFromFile and Import read them back, and the round
    trips between the two. File-system calls are not modelled: a directory
    is a map from file name to contents, and a file that is absent is a name
    that is not in the map. */
module Codec {
  import opened Types
  import opened Decimal
  import opened Text
  import opened Ledger
  import opened Aggregation

  const AccountsFile: string := "accounts.dump"
  const PaymentsFile: string := "payments.dump"
  const FavoritesFile: string := "favorites.dump"

  // ---------------------------------------------------------------- records as text

  function AccountFields(a: Account): seq<string> {
    [FormatInt(a.id), a.phone, FormatInt(a.balance)]
  }

  function PaymentFields(p: Payment): seq<string> {
    [p.id, FormatInt(p.accountID), FormatInt(p.amount), p.category, p.status]
  }

  function FavoriteFields(f: Favorite): seq<string> {
    [f.id, FormatInt(f.accountID), f.name, FormatInt(f.amount), f.category]
  }

  /** `id;phone;balance`: the line splits at ';' into exactly these three
      fields when the phone holds no ';', and it holds no newline when the
      phone holds none. */
  function AccountLine(a: Account): (r: string)
    ensures ';' !in a.phone ==> Split(r, ';') == [FormatInt(a.id), a.phone, FormatInt(a.balance)]
    ensures '\n' !in a.phone ==> '\n' !in r
  {
    var line := Join(AccountFields(a), ';');
    assert ';' !in a.phone ==> Split(line, ';') == AccountFields(a) by {
      if ';' !in a.phone {
        FormatIntIsPlain(a.id);
        FormatIntIsPlain(a.balance);
        SplitJoin(AccountFields(a), ';');
      }
    }
    assert '\n' !in a.phone ==> '\n' !in line by {
      if '\n' !in a.phone {
        FormatIntIsPlain(a.id);
        FormatIntIsPlain(a.balance);
        JoinAvoids(AccountFields(a), ';', '\n');
      }
    }
    line
  }

  /** `id;accountID;amount;category;status`: the line splits at ';' into
      exactly these five fields when the text fields hold no ';'. */
  function PaymentLine(p: Payment): (r: string)
    ensures ';' !in p.id && ';' !in p.category && ';' !in p.status ==>
              Split(r, ';') == [p.id, FormatInt(p.accountID), FormatInt(p.amount), p.category, p.status]
    ensures '\n' !in p.id && '\n' !in p.category && '\n' !in p.status ==> '\n' !in r
  {
    var line := Join(PaymentFields(p), ';');
    assert ';' !in p.id && ';' !in p.category && ';' !in p.status ==> Split(line, ';') == PaymentFields(p) by {
      if ';' !in p.id && ';' !in p.category && ';' !in p.status {
        FormatIntIsPlain(p.accountID);
        FormatIntIsPlain(p.amount);
        SplitJoin(PaymentFields(p), ';');
      }
    }
    assert '\n' !in p.id && '\n' !in p.category && '\n' !in p.status ==> '\n' !in line by {
      if '\n' !in p.id && '\n' !in p.category && '\n' !in p.status {
        FormatIntIsPlain(p.accountID);
        FormatIntIsPlain(p.amount);
        JoinAvoids(PaymentFields(p), ';', '\n');
      }
    }
    line
  }

  /** `id;accountID;name;amount;category`: the line splits at ';' into
      exactly these five fields when the text fields hold no ';'. */
  function FavoriteLine(f: Favorite): (r: string)
    ensures ';' !in f.id && ';' !in f.name && ';' !in f.category ==>
              Split(r, ';') == [f.id, FormatInt(f.accountID), f.name, FormatInt(f.amount), f.category]
    ensures '\n' !in f.id && '\n' !in f.name && '\n' !in f.category ==> '\n' !in r
  {
    var line := Join(FavoriteFields(f), ';');
    assert ';' !in f.id && ';' !in f.name && ';' !in f.category ==> Split(line, ';') == FavoriteFields(f) by {
      if ';' !in f.id && ';' !in f.name && ';' !in f.category {
        FormatIntIsPlain(f.accountID);
        FormatIntIsPlain(f.amount);
        SplitJoin(FavoriteFields(f), ';');
      }
    }
    assert '\n' !in f.id && '\n' !in f.name && '\n' !in f.category ==> '\n' !in line by {
      if '\n' !in f.id && '\n' !in f.name && '\n' !in f.category {
        FormatIntIsPlain(f.accountID);
        FormatIntIsPlain(f.amount);
        JoinAvoids(FavoriteFields(f), ';', '\n');
      }
    }
    line
  }

  /** One encoded line per record, in order. */
  function Lines<T>(records: seq<T>, encode: T -> string): seq<string> {
    seq(|records|, i requires 0 <= i < |records| => encode(records[i]))
  }

  /** One record more gives one line more. */
  lemma LinesSnoc<T>(records: seq<T>, i: nat, encode: T -> string)
    requires i < |records|
    ensures Lines(records[..i + 1], encode) == Lines(records[..i], encode) + [encode(records[i])]
  {
  }

  /** The single-file scheme: account records joined by '|', no trailing
      '|'. When no phone holds a '|', the text splits at '|' back into the
      account lines. */
  function SingleFileText(accounts: seq<Account>): (r: string)
    ensures |accounts| > 0 && (forall i :: 0 <= i < |accounts| ==> '|' !in accounts[i].phone) ==>
              Split(r, '|') == Lines(accounts, AccountLine)
  {
    var lines := Lines(accounts, AccountLine);
    assert |accounts| > 0 && (forall i :: 0 <= i < |accounts| ==> '|' !in accounts[i].phone) ==>
             Split(Join(lines, '|'), '|') == lines by {
      if |accounts| > 0 && (forall i :: 0 <= i < |accounts| ==> '|' !in accounts[i].phone) {
        forall i | 0 <= i < |lines| ensures '|' !in lines[i] {
          FormatIntIsPlain(accounts[i].id);
          FormatIntIsPlain(accounts[i].balance);
          JoinAvoids(AccountFields(accounts[i]), ';', '|');
        }
        SplitJoin(lines, '|');
      }
    }
    Join(lines, '|')
  }

  /** The directory scheme: one record per line, each line ending in '\n'. */
  function AccountsDump(accounts: seq<Account>): string {
    Terminated(Lines(accounts, AccountLine), '\n')
  }

  function PaymentsDump(payments: seq<Payment>): string {
    Terminated(Lines(payments, PaymentLine), '\n')
  }

  function FavoritesDump(favorites: seq<Favorite>): string {
    Terminated(Lines(favorites, FavoriteLine), '\n')
  }

  /** The directory after Export: each of the three dump files is (over)written
      when its collection is not empty; a collection that is empty writes no
      file, and every other file stays as it was. */
  function ExportDir(s: Store, dir: map<string, string>): (d: map<string, string>)
    ensures d.Keys == dir.Keys
                      + (if |s.accounts| > 0 then {AccountsFile} else {})
                      + (if |s.payments| > 0 then {PaymentsFile} else {})
                      + (if |s.favorites| > 0 then {FavoritesFile} else {})
    ensures |s.accounts| > 0 ==> d[AccountsFile] == AccountsDump(s.accounts)
    ensures |s.payments| > 0 ==> d[PaymentsFile] == PaymentsDump(s.payments)
    ensures |s.favorites| > 0 ==> d[FavoritesFile] == FavoritesDump(s.favorites)
    ensures forall name :: name in dir && name != AccountsFile && name != PaymentsFile && name != FavoritesFile
                           ==> d[name] == dir[name]
    ensures |s.accounts| == 0 && AccountsFile in dir ==> d[AccountsFile] == dir[AccountsFile]
    ensures |s.payments| == 0 && PaymentsFile in dir ==> d[PaymentsFile] == dir[PaymentsFile]
    ensures |s.favorites| == 0 && FavoritesFile in dir ==> d[FavoritesFile] == dir[FavoritesFile]
  {
    var d1 := if |s.accounts| > 0 then dir[AccountsFile := AccountsDump(s.accounts)] else dir;
    var d2 := if |s.payments| > 0 then d1[PaymentsFile := PaymentsDump(s.payments)] else d1;
    if |s.favorites| > 0 then d2[FavoritesFile := FavoritesDump(s.favorites)] else d2
  }

  // ---------------------------------------------------------------- text as records

  /** What the import loop makes of one line: a record, a parse error it
      returns, or an index past the fields the line has (a panic). */
  datatype LineParse<+T> = Parsed(record: T) | Bad(error: Error) | Short

  /** The error strconv.ParseInt reports for num. */
  function NumError(num: string, r: IntParse): Error {
    if r.RangeError? then ErrRange(num) else ErrSyntax(num)
  }

  /** One line of accounts.dump, read field by field in the order of the
      source: parse the ID, take the phone, parse the balance. A bad ID is
      reported even on a line too short for the other fields; a line with
      three fields never reaches the index panic; an error is always one of
      strconv's; a record read has int64 numbers and the second field as
      its phone. */
  function ParseAccountLine(line: string): (r: LineParse<Account>)
    ensures !ParseInt(Split(line, ';')[0]).IntOk? ==> r.Bad?
    ensures r.Short? <==> ParseInt(Split(line, ';')[0]).IntOk? && |Split(line, ';')| < 3
    ensures r.Bad? ==> r.error.ErrSyntax? || r.error.ErrRange?
    ensures r.Parsed? ==> && |Split(line, ';')| >= 3
                          && InInt64(r.record.id) && InInt64(r.record.balance)
                          && r.record.phone == Split(line, ';')[1]
  {
    var f := Split(line, ';');
    var id := ParseInt(f[0]);
    if !id.IntOk? then Bad(NumError(f[0], id))
    else if |f| < 3 then Short
    else
      var balance := ParseInt(f[2]);
      if !balance.IntOk? then Bad(NumError(f[2], balance))
      else Parsed(Account(id.value, f[1], balance.value))
  }

  /** One line of payments.dump: take the ID, parse the account ID, parse the
      amount, take the category and the status. A bad account ID is
      reported even when the later fields are missing; a line with five
      fields never reaches the index panic; an error is always one of
      strconv's; a record read has int64 numbers and its text fields in
      place. */
  function ParsePaymentLine(line: string): (r: LineParse<Payment>)
    ensures |Split(line, ';')| >= 2 && !ParseInt(Split(line, ';')[1]).IntOk? ==> r.Bad?
    ensures |Split(line, ';')| >= 5 ==> !r.Short?
    ensures |Split(line, ';')| < 2 ==> r.Short?
    ensures r.Bad? ==> r.error.ErrSyntax? || r.error.ErrRange?
    ensures r.Parsed? ==> var f := Split(line, ';');
                          && |f| >= 5
                          && InInt64(r.record.accountID) && InInt64(r.record.amount)
                          && r.record.id == f[0] && r.record.category == f[3] && r.record.status == f[4]
  {
    var f := Split(line, ';');
    if |f| < 2 then Short
    else
      var accountID := ParseInt(f[1]);
      if !accountID.IntOk? then Bad(NumError(f[1], accountID))
      else if |f| < 3 then Short
      else
        var amount := ParseInt(f[2]);
        if !amount.IntOk? then Bad(NumError(f[2], amount))
        else if |f| < 5 then Short
        else Parsed(Payment(f[0], accountID.value, amount.value, f[3], f[4]))
  }

  /** One line of favorites.dump: take the ID, parse the account ID, take the
      name, parse the amount, take the category. A bad account ID is
      reported even when the later fields are missing; a line with five
      fields never reaches the index panic; an error is always one of
      strconv's; a record read has int64 numbers and its text fields in
      place. */
  function ParseFavoriteLine(line: string): (r: LineParse<Favorite>)
    ensures |Split(line, ';')| >= 2 && !ParseInt(Split(line, ';')[1]).IntOk? ==> r.Bad?
    ensures |Split(line, ';')| >= 5 ==> !r.Short?
    ensures |Split(line, ';')| < 2 ==> r.Short?
    ensures r.Bad? ==> r.error.ErrSyntax? || r.error.ErrRange?
    ensures r.Parsed? ==> var f := Split(line, ';');
                          && |f| >= 5
                          && InInt64(r.record.accountID) && InInt64(r.record.amount)
                          && r.record.id == f[0] && r.record.name == f[2] && r.record.category == f[4]
  {
    var f := Split(line, ';');
    if |f| < 2 then Short
    else
      var accountID := ParseInt(f[1]);
      if !accountID.IntOk? then Bad(NumError(f[1], accountID))
      else if |f| < 4 then Short
      else
        var amount := ParseInt(f[3]);
        if !amount.IntOk? then Bad(NumError(f[3], amount))
        else if |f| < 5 then Short
        else Parsed(Favorite(f[0], accountID.value, f[2], amount.value, f[4]))
  }

  /** Why an import loop left its lines. */
  datatype Stop = EndOfInput | ParseFailure(error: Error) | IndexOutOfRange

  /** The records an import loop takes from its lines, and why it stopped. */
  datatype Scan<+T> = Scan(records: seq<T>, stop: Stop)

  /** The import loop over the lines of one dump file: it reads records until
      the lines run out or a line is empty, until a parse error (which it
      returns) or until a line too short for the fields it indexes. The
      records are those of the first lines, in order, and the line after
      them is what stopped the loop. */
  function ScanLines<T>(lines: seq<string>, parse: string -> LineParse<T>): (r: Scan<T>)
    ensures |r.records| <= |lines|
    decreases |lines|
  {
    if |lines| == 0 || |lines[0]| == 0 then Scan([], EndOfInput)
    else match parse(lines[0])
      case Short => Scan([], IndexOutOfRange)
      case Bad(e) => Scan([], ParseFailure(e))
      case Parsed(rec) =>
        var rest := ScanLines(lines[1..], parse);
        Scan([rec] + rest.records, rest.stop)
  }

  /** What the scan reads: record j is what line j (not empty) parses to,
      and the scan stops at the first line that is not a record: without
      error at an empty line or at the end of the lines, where Go indexes out
      of range at a line too short, with the strconv error at a bad number. */
  lemma {:induction false} ScanLinesRecords<T>(lines: seq<string>, parse: string -> LineParse<T>)
    ensures var r := ScanLines(lines, parse);
            && (forall j :: 0 <= j < |r.records| ==> |lines[j]| > 0 && parse(lines[j]) == Parsed(r.records[j]))
            && (|r.records| == |lines| ==> r.stop == EndOfInput)
            && (|r.records| < |lines| ==>
                  var line := lines[|r.records|];
                  || (|line| == 0 && r.stop == EndOfInput)
                  || (|line| > 0 && parse(line).Short? && r.stop == IndexOutOfRange)
                  || (|line| > 0 && parse(line).Bad? && r.stop == ParseFailure(parse(line).error)))
    decreases |lines|
  {
    if |lines| > 0 && |lines[0]| > 0 && parse(lines[0]).Parsed? {
      var r := ScanLines(lines, parse);
      var rest := ScanLines(lines[1..], parse);
      ScanLinesRecords(lines[1..], parse);
      assert r.records == [parse(lines[0]).record] + rest.records;
      forall j | 1 <= j < |r.records|
        ensures |lines[j]| > 0 && parse(lines[j]) == Parsed(r.records[j])
      {
        assert lines[1..][j - 1] == lines[j] && rest.records[j - 1] == r.records[j];
      }
      if |r.records| < |lines| {
        assert lines[1..][|rest.records|] == lines[|r.records|];
      }
    }
  }

  /** One step of the import loop at line i, which is not empty. */
  lemma ScanStep<T>(lines: seq<string>, i: nat, parse: string -> LineParse<T>)
    requires i < |lines| && |lines[i]| > 0
    ensures parse(lines[i]).Short? ==> ScanLines(lines[i..], parse).stop == IndexOutOfRange
    ensures parse(lines[i]).Bad? ==> ScanLines(lines[i..], parse) == Scan([], ParseFailure(parse(lines[i]).error))
    ensures parse(lines[i]).Parsed? ==>
              var rest := ScanLines(lines[i + 1..], parse);
              ScanLines(lines[i..], parse) == Scan([parse(lines[i]).record] + rest.records, rest.stop)
  {
    assert lines[i..][0] == lines[i];
    assert lines[i..][1..] == lines[i + 1..];
  }

  /** The import loop ends at the end of the lines and at an empty line. */
  lemma ScanEnd<T>(lines: seq<string>, i: nat, parse: string -> LineParse<T>)
    requires i <= |lines| && (i == |lines| || |lines[i]| == 0)
    ensures ScanLines(lines[i..], parse) == Scan([], EndOfInput)
  {
    if i < |lines| {
      assert lines[i..][0] == lines[i];
    }
  }

  /** The lines of a dump file as Import splits them: trimmed, then cut at '\n'. */
  function DumpLines(text: string): seq<string> {
    Split(TrimSpace(text), '\n')
  }

  /** The scan of one dump file of the directory; a missing file is skipped. */
  function SectionScan<T>(dir: map<string, string>, name: string, parse: string -> LineParse<T>): Scan<T> {
    if name in dir then ScanLines(DumpLines(dir[name]), parse) else Scan([], EndOfInput)
  }

  /** Import of one account: overwrite phone and balance of the first account
      with that ID, or append it and advance the ID counter by one. Payments
      and favorites are left alone; UpsertAccountLookup states the rest. */
  function UpsertAccount(s: Store, a: Account): (r: Store)
    ensures r.payments == s.payments && r.favorites == s.favorites
  {
    match AccountIndex(s.accounts, a.id)
    case Some(k) => s.(accounts := s.accounts[k := s.accounts[k].(phone := a.phone, balance := a.balance)])
    case None => s.(nextAccountID := s.nextAccountID + 1, accounts := s.accounts + [a])
  }

  /** Import of one payment: overwrite the first payment with that ID, or
      append it. The counter, accounts and favorites are left alone;
      UpsertPaymentLookup states the rest. */
  function UpsertPayment(s: Store, p: Payment): (r: Store)
    ensures r.nextAccountID == s.nextAccountID && r.accounts == s.accounts && r.favorites == s.favorites
  {
    match PaymentIndex(s.payments, p.id)
    case Some(k) =>
      s.(payments := s.payments[k := s.payments[k].(accountID := p.accountID, amount := p.amount, category := p.category, status := p.status)])
    case None => s.(payments := s.payments + [p])
  }

  /** Import of one favorite: overwrite the first favorite with that ID, or
      append it. The counter, accounts and payments are left alone;
      UpsertFavoriteLookup states the rest. */
  function UpsertFavorite(s: Store, f: Favorite): (r: Store)
    ensures r.nextAccountID == s.nextAccountID && r.accounts == s.accounts && r.payments == s.payments
  {
    match FavoriteIndex(s.favorites, f.id)
    case Some(k) =>
      s.(favorites := s.favorites[k := s.favorites[k].(accountID := f.accountID, name := f.name, amount := f.amount, category := f.category)])
    case None => s.(favorites := s.favorites + [f])
  }

  /** After importing an account, looking its ID up finds exactly the
      imported account, and every other account stays where and what it was;
      a known ID keeps the list's length and the counter, a new one is
      appended and advances the counter by one. */
  lemma UpsertAccountLookup(s: Store, a: Account)
    ensures var r := UpsertAccount(s, a);
            && AccountIndex(r.accounts, a.id).Some? && r.accounts[AccountIndex(r.accounts, a.id).value] == a
            && |r.accounts| >= |s.accounts|
            && (forall j :: 0 <= j < |s.accounts| && j != AccountIndex(r.accounts, a.id).value ==> r.accounts[j] == s.accounts[j])
            && (HasAccount(s.accounts, a.id) ==> |r.accounts| == |s.accounts| && r.nextAccountID == s.nextAccountID)
            && (!HasAccount(s.accounts, a.id) ==> r.accounts == s.accounts + [a] && r.nextAccountID == s.nextAccountID + 1)
  {
    var r := UpsertAccount(s, a);
    match AccountIndex(s.accounts, a.id)
    case Some(k) => AccountIndexAt(r.accounts, a.id, k);
    case None => AccountIndexAt(r.accounts, a.id, |s.accounts|);
  }

  /** After importing a payment, looking its ID up finds exactly the
      imported payment, and every other payment stays where and what it was;
      a known ID keeps the list's length, a new one is appended. */
  lemma UpsertPaymentLookup(s: Store, p: Payment)
    ensures var r := UpsertPayment(s, p);
            && PaymentIndex(r.payments, p.id).Some? && r.payments[PaymentIndex(r.payments, p.id).value] == p
            && |r.payments| >= |s.payments|
            && (forall j :: 0 <= j < |s.payments| && j != PaymentIndex(r.payments, p.id).value ==> r.payments[j] == s.payments[j])
            && (HasPayment(s.payments, p.id) ==> |r.payments| == |s.payments|)
            && (!HasPayment(s.payments, p.id) ==> r.payments == s.payments + [p])
  {
    var r := UpsertPayment(s, p);
    match PaymentIndex(s.payments, p.id)
    case Some(k) => PaymentIndexAt(r.payments, p.id, k);
    case None => PaymentIndexAt(r.payments, p.id, |s.payments|);
  }

  /** After importing a favorite, looking its ID up finds exactly the
      imported favorite, and every other favorite stays where and what it
      was; a known ID keeps the list's length, a new one is appended. */
  lemma UpsertFavoriteLookup(s: Store, f: Favorite)
    ensures var r := UpsertFavorite(s, f);
            && FavoriteIndex(r.favorites, f.id).Some? && r.favorites[FavoriteIndex(r.favorites, f.id).value] == f
            && |r.favorites| >= |s.favorites|
            && (forall j :: 0 <= j < |s.favorites| && j != FavoriteIndex(r.favorites, f.id).value ==> r.favorites[j] == s.favorites[j])
            && (HasFavorite(s.favorites, f.id) ==> |r.favorites| == |s.favorites|)
            && (!HasFavorite(s.favorites, f.id) ==> r.favorites == s.favorites + [f])
  {
    var r := UpsertFavorite(s, f);
    match FavoriteIndex(s.favorites, f.id)
    case Some(k) => FavoriteIndexAt(r.favorites, f.id, k);
    case None => FavoriteIndexAt(r.favorites, f.id, |s.favorites|);
  }

  function UpsertAccounts(s: Store, records: seq<Account>): (r: Store)
    ensures r.payments == s.payments && r.favorites == s.favorites
    decreases |records|
  {
    if |records| == 0 then s else UpsertAccounts(UpsertAccount(s, records[0]), records[1..])
  }

  function UpsertPayments(s: Store, records: seq<Payment>): (r: Store)
    ensures r.nextAccountID == s.nextAccountID && r.accounts == s.accounts && r.favorites == s.favorites
    decreases |records|
  {
    if |records| == 0 then s else UpsertPayments(UpsertPayment(s, records[0]), records[1..])
  }

  function UpsertFavorites(s: Store, records: seq<Favorite>): (r: Store)
    ensures r.nextAccountID == s.nextAccountID && r.accounts == s.accounts && r.payments == s.payments
    decreases |records|
  {
    if |records| == 0 then s else UpsertFavorites(UpsertFavorite(s, records[0]), records[1..])
  }

  /** Import does not reach a line too short for the fields it indexes: the
      accounts section, then (unless it returned an error) the payments
      section, then (unless that returned an error) the favorites section. */
  predicate ImportReadable(dir: map<string, string>) {
    var a := SectionScan(dir, AccountsFile, ParseAccountLine).stop;
    var p := SectionScan(dir, PaymentsFile, ParsePaymentLine).stop;
    var f := SectionScan(dir, FavoritesFile, ParseFavoriteLine).stop;
    && !a.IndexOutOfRange?
    && (a.ParseFailure? || (!p.IndexOutOfRange? && (p.ParseFailure? || !f.IndexOutOfRange?)))
  }

  /** Import(dir): the three sections in turn; every record read is imported
      before a parse error is returned, and a parse error ends the import.
      It passes exactly when no section stops at a parse error; the error it
      returns is strconv's; and a section after the failing one leaves its
      collection untouched. */
  function ImportDir(s: Store, dir: map<string, string>): (r: (Store, Outcome))
    requires ImportReadable(dir)
    ensures var a := SectionScan(dir, AccountsFile, ParseAccountLine).stop;
            var p := SectionScan(dir, PaymentsFile, ParsePaymentLine).stop;
            var f := SectionScan(dir, FavoritesFile, ParseFavoriteLine).stop;
            && (r.1.Pass? <==> !a.ParseFailure? && !p.ParseFailure? && !f.ParseFailure?)
            && (a.ParseFailure? ==> r.0.payments == s.payments && r.0.favorites == s.favorites)
            && (p.ParseFailure? ==> r.0.favorites == s.favorites)
    ensures r.1.Fail? ==> r.1.error.ErrSyntax? || r.1.error.ErrRange?
  {
    var sa := SectionScan(dir, AccountsFile, ParseAccountLine);
    assert sa.stop.ParseFailure? ==> sa.stop.error.ErrSyntax? || sa.stop.error.ErrRange? by {
      if AccountsFile in dir { ScanLinesRecords(DumpLines(dir[AccountsFile]), ParseAccountLine); }
    }
    var s1 := UpsertAccounts(s, sa.records);
    if sa.stop.ParseFailure? then (s1, Fail(sa.stop.error))
    else
      var sp := SectionScan(dir, PaymentsFile, ParsePaymentLine);
      assert sp.stop.ParseFailure? ==> sp.stop.error.ErrSyntax? || sp.stop.error.ErrRange? by {
        if PaymentsFile in dir { ScanLinesRecords(DumpLines(dir[PaymentsFile]), ParsePaymentLine); }
      }
      var s2 := UpsertPayments(s1, sp.records);
      if sp.stop.ParseFailure? then (s2, Fail(sp.stop.error))
      else
        var sf := SectionScan(dir, FavoritesFile, ParseFavoriteLine);
        assert sf.stop.ParseFailure? ==> sf.stop.error.ErrSyntax? || sf.stop.error.ErrRange? by {
          if FavoritesFile in dir { ScanLinesRecords(DumpLines(dir[FavoritesFile]), ParseFavoriteLine); }
        }
        var s3 := UpsertFavorites(s2, sf.records);
        if sf.stop.ParseFailure? then (s3, Fail(sf.stop.error)) else (s3, Pass)
  }

  /** ImportFromFile indexes three fields of every '|'-separated segment. */
  predicate SingleFileReadable(text: string) {
    var segments := Split(text, '|');
    forall i :: 0 <= i < |segments| ==> |Split(segments[i], ';')| >= 3
  }

  /** One segment of the single file; a number that does not parse is taken
      as the value ParseInt hands back with its error (0, or the clamped
      value on overflow). */
  function SingleFileAccount(segment: string): Account
    requires |Split(segment, ';')| >= 3
  {
    var f := Split(segment, ';');
    Account(ValueOf(ParseInt(f[0])), f[1], ValueOf(ParseInt(f[2])))
  }

  /** The accounts ImportFromFile appends, one per segment, in order. */
  function SingleFileAccounts(text: string): (accounts: seq<Account>)
    requires SingleFileReadable(text)
    ensures |accounts| == |Split(text, '|')|
  {
    var segments := Split(text, '|');
    seq(|segments|, i requires 0 <= i < |segments| => SingleFileAccount(segments[i]))
  }

  /** Segment i of the single file yields the account at position i. */
  lemma SingleFileAccountAt(text: string, i: nat)
    requires SingleFileReadable(text) && i < |Split(text, '|')|
    ensures var f := Split(Split(text, '|')[i], ';');
            SingleFileAccounts(text)[i] == Account(ValueOf(ParseInt(f[0])), f[1], ValueOf(ParseInt(f[2])))
  {
  }

  // ---------------------------------------------------------------- history batches

  function Abs(n: int): nat {
    if n < 0 then -n else n
  }

  /** Go's integer division, which truncates toward zero. */
  function GoQuo(a: int, b: int): int
    requires b != 0
  {
    var q := Abs(a) / Abs(b);
    if (a < 0) != (b < 0) then -q else q
  }

  /** Go's remainder, which takes the sign of the dividend. */
  function GoRem(a: int, b: int): int
    requires b != 0
  {
    a - b * GoQuo(a, b)
  }

  /** The number in the name of the k-th batch file (k from 0): the index of
      the last payment of the batch divided by records, plus one. With a
      negative batch size Go's division counts down from 1. */
  function BatchNumber(k: nat, records: int): int {
    if records > 0 then k + 1 else 1 - k
  }

  function BatchName(n: int): string {
    "payments" + FormatInt(n) + ".dump"
  }

  /** For a dividend that is not negative, Go's quotient is the Euclidean one
      with the divisor's sign, and Go's remainder is the Euclidean one. */
  lemma GoDivisionOfNat(a: nat, records: int)
    requires records != 0
    ensures GoQuo(a, records) == if records > 0 then a / Abs(records) else -(a / Abs(records))
    ensures GoRem(a, records) == a % Abs(records)
  {
    var b, q := Abs(records), a / Abs(records);
    assert a == b * q + a % b;
    if records < 0 {
      assert records * -q == b * q;
    }
  }

  /** Within batch k of size |records| (index i from k * |records| on), the
      source's test (i + 1) % records == 0 marks exactly the batch's last
      index, and (i / records) + 1 is the batch number. */
  lemma BatchArithmetic(i: nat, records: int, k: nat)
    requires records != 0
    requires k * Abs(records) <= i < k * Abs(records) + Abs(records)
    ensures GoRem(i + 1, records) == 0 <==> i + 1 == k * Abs(records) + Abs(records)
    ensures GoQuo(i, records) + 1 == BatchNumber(k, records)
    ensures (k + 1) * Abs(records) == k * Abs(records) + Abs(records)
  {
    var b := Abs(records);
    DivIff(i, b, k);
    GoDivisionOfNat(i, records);
    GoDivisionOfNat(i + 1, records);
    if i + 1 == k * b + b {
      DivIff(i + 1, b, k + 1);
      assert (i + 1) % b == (i + 1) - (k + 1) * b;
    } else {
      DivIff(i + 1, b, k);
      assert (i + 1) % b == (i + 1) - k * b;
    }
  }

  /** The batch files for the lines, the first of them being batch number k. */
  function Batches(lines: seq<string>, records: int, k: nat): (r: seq<DumpFile>)
    requires records != 0
    ensures r == [] <==> |lines| == 0
    ensures |r| <= |lines|
    ensures forall j :: 0 <= j < |r| ==> r[j].name == BatchName(BatchNumber(k + j, records))
    decreases |lines|
  {
    var size := Abs(records);
    if |lines| == 0 then []
    else if |lines| <= size then [DumpFile(BatchName(BatchNumber(k, records)), Terminated(lines, '\n'))]
    else [DumpFile(BatchName(BatchNumber(k, records)), Terminated(lines[..size], '\n'))] + Batches(lines[size..], records, k + 1)
  }

  /** The batch that starts at index start ends at index i when i is the
      batch's last index or the last index of all: it is the first file of
      the batches from start on, and the others start after i. */
  lemma BatchStep(lines: seq<string>, records: int, k: nat, start: nat, i: nat)
    requires records != 0 && start <= i < |lines|
    requires i + 1 <= start + Abs(records)
    requires i + 1 == start + Abs(records) || i == |lines| - 1
    ensures Batches(lines[start..], records, k)
            == [DumpFile(BatchName(BatchNumber(k, records)), Terminated(lines[start..i + 1], '\n'))]
               + Batches(lines[i + 1..], records, k + 1)
  {
    var rest := lines[start..];
    var size := Abs(records);
    if |rest| <= size {
      assert rest == lines[start..i + 1];
      assert lines[i + 1..] == [];
    } else {
      assert rest[..size] == lines[start..i + 1];
      assert rest[size..] == lines[i + 1..];
    }
  }

  /** The state of the loop that writes the batches after i lines: the
      current batch k starts at start and holds the text data of the lines
      from start to i, and the files written so far followed by the batches
      still to come are all the batches. */
  predicate BatchLoop(lines: seq<string>, records: int, i: nat, start: nat, k: nat, data: string, files: seq<DumpFile>) {
    && records != 0 && start <= i <= |lines|
    && (i < |lines| ==> start == k * Abs(records) && i < start + Abs(records))
    && (i == |lines| ==> start == i)
    && data == Terminated(lines[start..i], '\n')
    && files + Batches(lines[start..], records, k) == Batches(lines, records, 0)
  }

  lemma BatchLoopStart(lines: seq<string>, records: int)
    requires records != 0
    ensures BatchLoop(lines, records, 0, 0, 0, "", [])
  {
    assert lines[0..] == lines;
  }

  /** One step of the loop: line i joins the current batch; the file number
      the source computes is the batch's; and when the source's flush test
      holds the batch is complete, so writing it and starting batch k + 1
      after i keeps the loop state, as does going on otherwise. */
  lemma BatchLoopStep(lines: seq<string>, records: int, i: nat, start: nat, k: nat, data: string, files: seq<DumpFile>)
    requires BatchLoop(lines, records, i, start, k, data, files) && i < |lines|
    ensures GoQuo(i, records) + 1 == BatchNumber(k, records)
    ensures GoRem(i + 1, records) == 0 || i == |lines| - 1 ==>
              BatchLoop(lines, records, i + 1, i + 1, k + 1, "",
                        files + [DumpFile(BatchName(BatchNumber(k, records)), data + lines[i] + "\n")])
    ensures !(GoRem(i + 1, records) == 0 || i == |lines| - 1) ==>
              BatchLoop(lines, records, i + 1, start, k, data + lines[i] + "\n", files)
  {
    BatchArithmetic(i, records, k);
    SliceSnoc(lines, start, i);
    TerminatedSnoc(lines[start..i], lines[i], '\n');
    if GoRem(i + 1, records) == 0 || i == |lines| - 1 {
      BatchStep(lines, records, k, start, i);
      assert lines[i + 1..i + 1] == [];
    }
  }

  /** When the loop has read every line, the files are all the batches. */
  lemma BatchLoopDone(lines: seq<string>, records: int, start: nat, k: nat, data: string, files: seq<DumpFile>)
    requires BatchLoop(lines, records, |lines|, start, k, data, files)
    ensures files == Batches(lines, records, 0)
  {
    assert lines[start..] == [];
  }

  /** HistoryToFiles: nothing for no payments; everything in payments.dump when
      it fits in one batch; otherwise numbered batch files. A batch size of 0
      with payments to write divides by zero in the source. */
  function HistoryFiles(payments: seq<Payment>, records: int): (r: seq<DumpFile>)
    requires records != 0 || |payments| == 0
    ensures r == [] <==> |payments| == 0
    ensures Contents(r) == PaymentsDump(payments)
    ensures 0 < |payments| <= records ==> |r| == 1 && r[0].name == PaymentsFile
    ensures |payments| > records ==> forall j :: 0 <= j < |r| ==> r[j].name == BatchName(BatchNumber(j, records))
  {
    if |payments| == 0 then []
    else if |payments| <= records then
      assert Contents([DumpFile(PaymentsFile, PaymentsDump(payments))]) == PaymentsDump(payments) + "";
      [DumpFile(PaymentsFile, PaymentsDump(payments))]
    else
      BatchesContents(Lines(payments, PaymentLine), records, 0);
      Batches(Lines(payments, PaymentLine), records, 0)
  }

  /** The lines cut into consecutive groups of size, the last one possibly shorter. */
  function Chunks(lines: seq<string>, size: nat): seq<seq<string>>
    requires size > 0
    decreases |lines|
  {
    if |lines| == 0 then []
    else if |lines| <= size then [lines]
    else [lines[..size]] + Chunks(lines[size..], size)
  }

  /** Every group is non-empty and at most size long, all but the last are
      exactly size long, there are just enough of them, and together they
      are the lines in order. */
  lemma {:induction false} ChunksShape(lines: seq<string>, size: nat)
    requires size > 0
    ensures var cs := Chunks(lines, size);
            && (forall j :: 0 <= j < |cs| ==> 0 < |cs[j]| <= size)
            && (forall j :: 0 <= j < |cs| - 1 ==> |cs[j]| == size)
            && ((|cs| - 1) * size < |lines| <= |cs| * size || (|lines| == 0 && cs == []))
            && Flatten(cs) == lines
    decreases |lines|
  {
    var cs := Chunks(lines, size);
    if |lines| > size {
      var rest := Chunks(lines[size..], size);
      ChunksShape(lines[size..], size);
      assert cs[1..] == rest;
      assert forall j :: 1 <= j < |cs| ==> cs[j] == rest[j - 1];
      var n := |rest|;
      assert (n - 1) * size + size == n * size;
      assert n * size + size == (n + 1) * size;
      assert lines[..size] + lines[size..] == lines;
    } else if |lines| > 0 {
      assert cs[1..] == [];
    }
  }

  function Flatten(css: seq<seq<string>>): seq<string> {
    if |css| == 0 then [] else css[0] + Flatten(css[1..])
  }

  /** All contents of the files, in order. */
  function Contents(files: seq<DumpFile>): string {
    if |files| == 0 then "" else files[0].contents + Contents(files[1..])
  }

  // ---------------------------------------------------------------- round trips

  /** A field that holds neither separator of the directory scheme. */
  predicate Plain(field: string) {
    ';' !in field && '\n' !in field
  }

  predicate AccountExportable(a: Account) {
    Plain(a.phone) && InInt64(a.id) && InInt64(a.balance)
  }

  /** Besides plain fields and int64 numbers: Import trims white space off the
      whole file, which would eat into an ID that starts, or a status that
      ends, with white space. */
  predicate PaymentExportable(p: Payment) {
    && Plain(p.id) && Plain(p.category) && Plain(p.status)
    && InInt64(p.accountID) && InInt64(p.amount)
    && (|p.id| == 0 || !IsSpace(p.id[0]))
    && (|p.status| == 0 || !IsSpace(p.status[|p.status| - 1]))
  }

  predicate FavoriteExportable(f: Favorite) {
    && Plain(f.id) && Plain(f.name) && Plain(f.category)
    && InInt64(f.accountID) && InInt64(f.amount)
    && (|f.id| == 0 || !IsSpace(f.id[0]))
    && (|f.category| == 0 || !IsSpace(f.category[|f.category| - 1]))
  }

  /** What a line needs to come back whole through a dump file: it is not
      empty, holds no newline, and neither starts nor ends with white space. */
  predicate DumpSafeLine(line: string) {
    |line| > 0 && '\n' !in line && !IsSpace(line[0]) && !IsSpace(line[|line| - 1])
  }

  lemma FormatIntIsPlain(n: int)
    ensures ';' !in FormatInt(n) && '\n' !in FormatInt(n) && '|' !in FormatInt(n)
    ensures !IsSpace(FormatInt(n)[0]) && !IsSpace(FormatInt(n)[|FormatInt(n)| - 1])
  {
    FormatIntAvoids(n, ';');
    FormatIntAvoids(n, '\n');
    FormatIntAvoids(n, '|');
    var s := FormatInt(n);
    if |s| > 1 {
      assert s[|s| - 1] == s[1..][|s| - 2];
    }
  }

  /** Fields free of ';' and '\n' join into a line fit for a dump file when
      the first field does not start, and the last does not end, with white
      space (an empty first or last field puts ';' at that end). */
  lemma FieldsLineSafe(f: seq<string>)
    requires |f| > 1
    requires forall i :: 0 <= i < |f| ==> Plain(f[i])
    requires |f[0]| == 0 || !IsSpace(f[0][0])
    requires |f[|f| - 1]| == 0 || !IsSpace(f[|f| - 1][|f[|f| - 1]| - 1])
    ensures DumpSafeLine(Join(f, ';'))
  {
    var line := Join(f, ';');
    JoinAvoids(f, ';', '\n');
    assert line == f[0] + [';'] + Join(f[1..], ';');
    assert line[0] == if |f[0]| == 0 then ';' else f[0][0];
    JoinSnoc(f, ';');
    var last := f[|f| - 1];
    assert line[|line| - 1] == if |last| == 0 then ';' else last[|last| - 1];
  }

  lemma AccountLineRoundTrip(a: Account)
    requires AccountExportable(a)
    ensures DumpSafeLine(AccountLine(a))
    ensures ParseAccountLine(AccountLine(a)) == Parsed(a)
  {
    var f := AccountFields(a);
    FormatIntIsPlain(a.id);
    FormatIntIsPlain(a.balance);
    FieldsLineSafe(f);
    SplitJoin(f, ';');
    ParseFormat(a.id);
    ParseFormat(a.balance);
  }

  lemma PaymentLineRoundTrip(p: Payment)
    requires PaymentExportable(p)
    ensures DumpSafeLine(PaymentLine(p))
    ensures ParsePaymentLine(PaymentLine(p)) == Parsed(p)
  {
    var f := PaymentFields(p);
    FormatIntIsPlain(p.accountID);
    FormatIntIsPlain(p.amount);
    FieldsLineSafe(f);
    SplitJoin(f, ';');
    ParseFormat(p.accountID);
    ParseFormat(p.amount);
  }

  lemma FavoriteLineRoundTrip(fav: Favorite)
    requires FavoriteExportable(fav)
    ensures DumpSafeLine(FavoriteLine(fav))
    ensures ParseFavoriteLine(FavoriteLine(fav)) == Parsed(fav)
  {
    var f := FavoriteFields(fav);
    FormatIntIsPlain(fav.accountID);
    FormatIntIsPlain(fav.amount);
    FieldsLineSafe(f);
    SplitJoin(f, ';');
    ParseFormat(fav.accountID);
    ParseFormat(fav.amount);
  }

  /** Trimming a dump file built from safe lines leaves the lines joined by
      newlines: only the final newline goes. */
  lemma DumpTrimmed(lines: seq<string>)
    requires |lines| > 0 && DumpSafeLine(lines[0]) && DumpSafeLine(lines[|lines| - 1])
    ensures TrimSpace(Terminated(lines, '\n')) == Join(lines, '\n')
  {
    var x := Join(lines, '\n');
    TerminatedIsJoined(lines, '\n');
    JoinEnds(lines, '\n');
    TrimSpaceNewline(x);
    assert x + "\n" == x + ['\n'];
  }

  /** A dump file built from safe lines splits back into exactly those lines. */
  lemma DumpLinesOfDump(lines: seq<string>)
    requires |lines| > 0
    requires forall i :: 0 <= i < |lines| ==> DumpSafeLine(lines[i])
    ensures DumpLines(Terminated(lines, '\n')) == lines
  {
    DumpTrimmed(lines);
    SplitJoin(lines, '\n');
  }

  /** The import loop reads back every record of lines that encode records
      one by one, and stops at the end. */
  lemma {:induction false} ScanEncoded<T>(records: seq<T>, encode: T -> string, parse: string -> LineParse<T>)
    requires forall i :: 0 <= i < |records| ==> |encode(records[i])| > 0 && parse(encode(records[i])) == Parsed(records[i])
    ensures ScanLines(Lines(records, encode), parse) == Scan(records, EndOfInput)
    decreases |records|
  {
    if |records| > 0 {
      assert Lines(records, encode)[1..] == Lines(records[1..], encode);
      ScanEncoded(records[1..], encode, parse);
      assert [records[0]] + records[1..] == records;
    }
  }

  predicate DistinctAccountIDs(accounts: seq<Account>) {
    forall i, j :: 0 <= i < j < |accounts| ==> accounts[i].id != accounts[j].id
  }

  predicate DistinctPaymentIDs(payments: seq<Payment>) {
    forall i, j :: 0 <= i < j < |payments| ==> payments[i].id != payments[j].id
  }

  predicate DistinctFavoriteIDs(favorites: seq<Favorite>) {
    forall i, j :: 0 <= i < j < |favorites| ==> favorites[i].id != favorites[j].id
  }

  /** Importing accounts whose IDs are new and distinct appends them all, in
      order, and advances the counter once per account. */
  lemma {:induction false} UpsertNewAccounts(s: Store, records: seq<Account>)
    requires DistinctAccountIDs(records)
    requires forall i :: 0 <= i < |records| ==> !HasAccount(s.accounts, records[i].id)
    ensures UpsertAccounts(s, records) == s.(nextAccountID := s.nextAccountID + |records|, accounts := s.accounts + records)
    decreases |records|
  {
    if |records| > 0 {
      var s1 := UpsertAccount(s, records[0]);
      assert s1 == s.(nextAccountID := s.nextAccountID + 1, accounts := s.accounts + [records[0]]);
      forall i | 0 <= i < |records[1..]| ensures !HasAccount(s1.accounts, records[1..][i].id) {
        assert records[1..][i] == records[i + 1];
      }
      UpsertNewAccounts(s1, records[1..]);
      assert s.accounts + [records[0]] + records[1..] == s.accounts + records;
    }
  }

  lemma {:induction false} UpsertNewPayments(s: Store, records: seq<Payment>)
    requires DistinctPaymentIDs(records)
    requires forall i :: 0 <= i < |records| ==> !HasPayment(s.payments, records[i].id)
    ensures UpsertPayments(s, records) == s.(payments := s.payments + records)
    decreases |records|
  {
    if |records| > 0 {
      var s1 := UpsertPayment(s, records[0]);
      assert s1 == s.(payments := s.payments + [records[0]]);
      forall i | 0 <= i < |records[1..]| ensures !HasPayment(s1.payments, records[1..][i].id) {
        assert records[1..][i] == records[i + 1];
      }
      UpsertNewPayments(s1, records[1..]);
      assert s.payments + [records[0]] + records[1..] == s.payments + records;
    }
  }

  lemma {:induction false} UpsertNewFavorites(s: Store, records: seq<Favorite>)
    requires DistinctFavoriteIDs(records)
    requires forall i :: 0 <= i < |records| ==> !HasFavorite(s.favorites, records[i].id)
    ensures UpsertFavorites(s, records) == s.(favorites := s.favorites + records)
    decreases |records|
  {
    if |records| > 0 {
      var s1 := UpsertFavorite(s, records[0]);
      assert s1 == s.(favorites := s.favorites + [records[0]]);
      forall i | 0 <= i < |records[1..]| ensures !HasFavorite(s1.favorites, records[1..][i].id) {
        assert records[1..][i] == records[i + 1];
      }
      UpsertNewFavorites(s1, records[1..]);
      assert s.favorites + [records[0]] + records[1..] == s.favorites + records;
    }
  }

  lemma AccountsSectionRoundTrip(accounts: seq<Account>, dir: map<string, string>)
    requires forall i :: 0 <= i < |accounts| ==> AccountExportable(accounts[i])
    requires |accounts| > 0 ==> AccountsFile in dir && dir[AccountsFile] == AccountsDump(accounts)
    requires |accounts| == 0 ==> AccountsFile !in dir
    ensures SectionScan(dir, AccountsFile, ParseAccountLine) == Scan(accounts, EndOfInput)
  {
    var lines := Lines(accounts, AccountLine);
    forall i | 0 <= i < |accounts| ensures DumpSafeLine(lines[i]) && ParseAccountLine(lines[i]) == Parsed(accounts[i]) {
      AccountLineRoundTrip(accounts[i]);
    }
    if |accounts| > 0 {
      DumpLinesOfDump(lines);
      ScanEncoded(accounts, AccountLine, ParseAccountLine);
    }
  }

  lemma PaymentsSectionRoundTrip(payments: seq<Payment>, dir: map<string, string>)
    requires forall i :: 0 <= i < |payments| ==> PaymentExportable(payments[i])
    requires |payments| > 0 ==> PaymentsFile in dir && dir[PaymentsFile] == PaymentsDump(payments)
    requires |payments| == 0 ==> PaymentsFile !in dir
    ensures SectionScan(dir, PaymentsFile, ParsePaymentLine) == Scan(payments, EndOfInput)
  {
    var lines := Lines(payments, PaymentLine);
    forall i | 0 <= i < |payments| ensures DumpSafeLine(lines[i]) && ParsePaymentLine(lines[i]) == Parsed(payments[i]) {
      PaymentLineRoundTrip(payments[i]);
    }
    if |payments| > 0 {
      DumpLinesOfDump(lines);
      ScanEncoded(payments, PaymentLine, ParsePaymentLine);
    }
  }

  lemma FavoritesSectionRoundTrip(favorites: seq<Favorite>, dir: map<string, string>)
    requires forall i :: 0 <= i < |favorites| ==> FavoriteExportable(favorites[i])
    requires |favorites| > 0 ==> FavoritesFile in dir && dir[FavoritesFile] == FavoritesDump(favorites)
    requires |favorites| == 0 ==> FavoritesFile !in dir
    ensures SectionScan(dir, FavoritesFile, ParseFavoriteLine) == Scan(favorites, EndOfInput)
  {
    var lines := Lines(favorites, FavoriteLine);
    forall i | 0 <= i < |favorites| ensures DumpSafeLine(lines[i]) && ParseFavoriteLine(lines[i]) == Parsed(favorites[i]) {
      FavoriteLineRoundTrip(favorites[i]);
    }
    if |favorites| > 0 {
      DumpLinesOfDump(lines);
      ScanEncoded(favorites, FavoriteLine, ParseFavoriteLine);
    }
  }

  /** Every record can be written to a dump file and read back. */
  predicate Exportable(s: Store) {
    && (forall i :: 0 <= i < |s.accounts| ==> AccountExportable(s.accounts[i]))
    && (forall i :: 0 <= i < |s.payments| ==> PaymentExportable(s.payments[i]))
    && (forall i :: 0 <= i < |s.favorites| ==> FavoriteExportable(s.favorites[i]))
  }

  /** Export into an empty directory writes exactly the non-empty sections. */
  lemma ExportedFiles(s: Store)
    ensures var dir := ExportDir(s, map[]);
            && (|s.accounts| > 0 <==> AccountsFile in dir)
            && (|s.payments| > 0 <==> PaymentsFile in dir)
            && (|s.favorites| > 0 <==> FavoritesFile in dir)
            && (|s.accounts| > 0 ==> dir[AccountsFile] == AccountsDump(s.accounts))
            && (|s.payments| > 0 ==> dir[PaymentsFile] == PaymentsDump(s.payments))
            && (|s.favorites| > 0 ==> dir[FavoritesFile] == FavoritesDump(s.favorites))
  {
    assert AccountsFile != PaymentsFile && AccountsFile != FavoritesFile && PaymentsFile != FavoritesFile by {
      assert AccountsFile[0] != PaymentsFile[0] && AccountsFile[0] != FavoritesFile[0] && PaymentsFile[0] != FavoritesFile[0];
    }
  }

  /** Each section of a directory written by Export into an empty directory
      scans back to the records it was written from. */
  lemma ExportedSections(s: Store)
    requires Exportable(s)
    ensures var dir := ExportDir(s, map[]);
            && SectionScan(dir, AccountsFile, ParseAccountLine) == Scan(s.accounts, EndOfInput)
            && SectionScan(dir, PaymentsFile, ParsePaymentLine) == Scan(s.payments, EndOfInput)
            && SectionScan(dir, FavoritesFile, ParseFavoriteLine) == Scan(s.favorites, EndOfInput)
            && ImportReadable(dir)
  {
    var dir := ExportDir(s, map[]);
    ExportedFiles(s);
    AccountsSectionRoundTrip(s.accounts, dir);
    PaymentsSectionRoundTrip(s.payments, dir);
    FavoritesSectionRoundTrip(s.favorites, dir);
  }

  lemma FreshAccounts(accounts: seq<Account>)
    requires DistinctAccountIDs(accounts)
    ensures UpsertAccounts(Empty, accounts) == Store(|accounts|, accounts, [], [])
  {
    UpsertNewAccounts(Empty, accounts);
  }

  lemma FreshPayments(s: Store, payments: seq<Payment>)
    requires s.payments == [] && DistinctPaymentIDs(payments)
    ensures UpsertPayments(s, payments) == s.(payments := payments)
  {
    UpsertNewPayments(s, payments);
  }

  lemma FreshFavorites(s: Store, favorites: seq<Favorite>)
    requires s.favorites == [] && DistinctFavoriteIDs(favorites)
    ensures UpsertFavorites(s, favorites) == s.(favorites := favorites)
  {
    UpsertNewFavorites(s, favorites);
  }

  /** Importing distinct records into a fresh service appends them all. */
  lemma UpsertAllNew(accounts: seq<Account>, payments: seq<Payment>, favorites: seq<Favorite>)
    requires DistinctAccountIDs(accounts) && DistinctPaymentIDs(payments) && DistinctFavoriteIDs(favorites)
    ensures UpsertFavorites(UpsertPayments(UpsertAccounts(Empty, accounts), payments), favorites)
            == Store(|accounts|, accounts, payments, favorites)
  {
    var s1 := UpsertAccounts(Empty, accounts);
    FreshAccounts(accounts);
    var s2 := UpsertPayments(s1, payments);
    FreshPayments(s1, payments);
    FreshFavorites(s2, favorites);
  }

  /** Export into an empty directory followed by Import into a fresh service
      gives back every record, in order; the ID counter ends at the number of
      accounts, since each imported account advances it by one. */
  lemma ExportImportRoundTrip(s: Store)
    requires Exportable(s)
    requires DistinctAccountIDs(s.accounts) && DistinctPaymentIDs(s.payments) && DistinctFavoriteIDs(s.favorites)
    ensures ImportReadable(ExportDir(s, map[]))
    ensures ImportDir(Empty, ExportDir(s, map[])) == (Store(|s.accounts|, s.accounts, s.payments, s.favorites), Pass)
  {
    ExportedSections(s);
    UpsertAllNew(s.accounts, s.payments, s.favorites);
  }

  /** For a store built by the ledger operations the round trip is exact. */
  lemma ValidExportImportRoundTrip(s: Store)
    requires Valid(s) && Exportable(s)
    ensures ImportReadable(ExportDir(s, map[]))
    ensures ImportDir(Empty, ExportDir(s, map[])) == (s, Pass)
  {
    ExportImportRoundTrip(s);
  }

  /** One account's segment of the single file: free of the segment
      separator, and read back as the account. */
  lemma AccountSegmentRoundTrip(a: Account)
    requires AccountExportable(a) && '|' !in a.phone
    ensures '|' !in AccountLine(a)
    ensures |Split(AccountLine(a), ';')| >= 3 && SingleFileAccount(AccountLine(a)) == a
  {
    var f := AccountFields(a);
    FormatIntIsPlain(a.id);
    FormatIntIsPlain(a.balance);
    JoinAvoids(f, ';', '|');
    SplitJoin(f, ';');
    ParseFormat(a.id);
    ParseFormat(a.balance);
  }

  /** The single-file scheme gives back the accounts it wrote, provided there
      is at least one (the empty file cannot be read back: its one segment has
      a single field) and no phone holds ';' or '|'. */
  lemma SingleFileRoundTrip(accounts: seq<Account>)
    requires |accounts| > 0
    requires forall i :: 0 <= i < |accounts| ==> AccountExportable(accounts[i]) && '|' !in accounts[i].phone
    ensures SingleFileReadable(SingleFileText(accounts))
    ensures SingleFileAccounts(SingleFileText(accounts)) == accounts
  {
    var lines := Lines(accounts, AccountLine);
    forall i | 0 <= i < |lines|
      ensures '|' !in lines[i] && |Split(lines[i], ';')| >= 3 && SingleFileAccount(lines[i]) == accounts[i]
    {
      AccountSegmentRoundTrip(accounts[i]);
    }
    SplitJoin(lines, '|');
  }

  /** The empty single file, which ExportToFile writes for no accounts, makes
      ImportFromFile index past its fields. */
  lemma EmptySingleFileUnreadable()
    ensures SingleFileText([]) == ""
    ensures !SingleFileReadable("")
  {
    var segments := Split("", '|');
    assert segments == [""];
    assert |Split(segments[0], ';')| == 1;
  }

  /** Batch files hold the lines in consecutive groups of the batch size,
      numbered on from k. */
  lemma {:induction false} BatchCount(lines: seq<string>, records: int, k: nat)
    requires records != 0
    ensures |Batches(lines, records, k)| == |Chunks(lines, Abs(records))|
    decreases |lines|
  {
    if |lines| > Abs(records) {
      BatchCount(lines[Abs(records)..], records, k + 1);
    }
  }

  /** The j-th batch file of those numbered on from k holds group j. */
  lemma {:induction false} BatchAt(lines: seq<string>, records: int, k: nat, j: nat)
    requires records != 0 && j < |Chunks(lines, Abs(records))|
    ensures j < |Batches(lines, records, k)|
    ensures Batches(lines, records, k)[j]
            == DumpFile(BatchName(BatchNumber(k + j, records)), Terminated(Chunks(lines, Abs(records))[j], '\n'))
    decreases j
  {
    BatchCount(lines, records, k);
    var size := Abs(records);
    if j > 0 {
      BatchAt(lines[size..], records, k + 1, j - 1);
      assert k + 1 + (j - 1) == k + j;
    }
  }

  lemma BatchesAreChunks(lines: seq<string>, records: int, k: nat)
    requires records != 0
    ensures var cs, files := Chunks(lines, Abs(records)), Batches(lines, records, k);
            && |files| == |cs|
            && forall j :: 0 <= j < |cs| ==>
                 files[j] == DumpFile(BatchName(BatchNumber(k + j, records)), Terminated(cs[j], '\n'))
  {
    BatchCount(lines, records, k);
    forall j | 0 <= j < |Chunks(lines, Abs(records))|
      ensures Batches(lines, records, k)[j]
              == DumpFile(BatchName(BatchNumber(k + j, records)), Terminated(Chunks(lines, Abs(records))[j], '\n'))
    {
      BatchAt(lines, records, k, j);
    }
  }

  lemma {:induction false} BatchesContents(lines: seq<string>, records: int, k: nat)
    requires records != 0
    ensures Contents(Batches(lines, records, k)) == Terminated(lines, '\n')
    decreases |lines|
  {
    var size := Abs(records);
    if |lines| > size {
      BatchesContents(lines[size..], records, k + 1);
      TerminatedAppend(lines[..size], lines[size..], '\n');
      assert lines[..size] + lines[size..] == lines;
    } else if |lines| > 0 {
      assert Terminated(lines, '\n') + "" == Terminated(lines, '\n');
    }
  }

  /** HistoryToFiles with a positive batch size and at least one payment:
      the contents of the files, in order, are the whole payments dump; when
      everything fits in one batch it goes to payments.dump, otherwise to
      payments1.dump, payments2.dump, ..., every file holding the batch size
      in lines except the last, which holds between one line and the batch
      size, and there are just enough files for all lines. */
  lemma HistoryFilesShape(payments: seq<Payment>, records: int)
    requires records > 0 && |payments| > 0
    ensures var files := HistoryFiles(payments, records);
            && Contents(files) == PaymentsDump(payments)
            && (|payments| <= records ==> files == [DumpFile(PaymentsFile, PaymentsDump(payments))])
            && (|payments| > records ==>
                  var cs := Chunks(Lines(payments, PaymentLine), records);
                  && |files| == |cs| >= 2
                  && (|files| - 1) * records < |payments| <= |files| * records
                  && (forall j :: 0 <= j < |files| ==>
                        files[j] == DumpFile(BatchName(j + 1), Terminated(cs[j], '\n')))
                  && (forall j :: 0 <= j < |files| - 1 ==> |cs[j]| == records)
                  && 0 < |cs[|cs| - 1]| <= records
                  && Flatten(cs) == Lines(payments, PaymentLine))
  {
    var lines := Lines(payments, PaymentLine);
    if |payments| > records {
      ChunksShape(lines, records);
      BatchesAreChunks(lines, records, 0);
      BatchesContents(lines, records, 0);
    } else {
      assert Contents([DumpFile(PaymentsFile, PaymentsDump(payments))]) == PaymentsDump(payments) + "";
    }
  }
}
