/**
  The account list: records separated by `&`, fields by `----`, each field
  stripped, the third field an optional TOTP secret; an in-source list is used
  when the environment string yields no account (ql-docker-plus.py:44-69).
*/
module Accounts {
  import opened Wrappers
  import opened Text

  /** One configured account. `totpSecret` is "" when none is configured. */
  datatype Account = Account(username: string, password: string, totpSecret: string)

  const RecordSeparator: string := "&"
  const FieldSeparator: string := "----"

  /** A field as the parser delivers it: stripped, and free of both separators. */
  predicate CleanField(f: string) {
    IsStripped(f) && !Contains(f, RecordSeparator) && !Contains(f, FieldSeparator)
  }

  /**
    One `&`-separated record: stripped and split on `----`; fewer than two fields
    is no account; the third field, when present, is the TOTP secret; later fields
    are ignored.
  */
  function ParseRecord(record: string): (r: Option<Account>)
    ensures r.Some? <==> Contains(Strip(record), FieldSeparator)
    ensures r.Some? ==> IsStripped(r.value.username) && IsStripped(r.value.password) && IsStripped(r.value.totpSecret)
  {
    var parts := Split(Strip(record), FieldSeparator);
    TwoFieldsIffSeparator(Strip(record));
    if |parts| >= 2 then
      Some(Account(Strip(parts[0]), Strip(parts[1]), if |parts| > 2 then Strip(parts[2]) else ""))
    else
      None
  }

  /** A string splits into two or more fields exactly when it contains the separator. */
  lemma {:induction false} TwoFieldsIffSeparator(e: string)
    ensures |Split(e, FieldSeparator)| >= 2 <==> Contains(e, FieldSeparator)
  {
    ContainsIffFound(e, FieldSeparator);
  }

  /** A field cut from a record holds neither separator, provided the record held no `&`. */
  lemma {:induction false} FieldOfRecordClean(record: string, k: nat)
    requires !Contains(record, RecordSeparator)
    requires k < |Split(Strip(record), FieldSeparator)|
    ensures CleanField(Strip(Split(Strip(record), FieldSeparator)[k]))
  {
    var e := Strip(record);
    var parts := Split(e, FieldSeparator);
    var f := Strip(parts[k]);
    SplitPiecesFree(e, FieldSeparator);
    if Contains(f, FieldSeparator) {
      ContainsStripped(parts[k], FieldSeparator);
    }
    if Contains(f, RecordSeparator) {
      StripInside(parts[k]);
      JoinSplit(e, FieldSeparator);
      PieceOfJoin(parts, FieldSeparator, k);
      StripInside(record);
      ContainsTrans(parts[k], f, RecordSeparator);
      ContainsTrans(e, parts[k], RecordSeparator);
      ContainsTrans(record, e, RecordSeparator);
    }
  }

  /** Every account parsed from a record without `&` has clean fields. */
  lemma {:induction false} ParseRecordClean(record: string)
    requires !Contains(record, RecordSeparator)
    ensures ParseRecord(record).Some? ==>
      var a := ParseRecord(record).value;
      CleanField(a.username) && CleanField(a.password) && CleanField(a.totpSecret)
  {
    var parts := Split(Strip(record), FieldSeparator);
    if ParseRecord(record).Some? {
      FieldOfRecordClean(record, 0);
      FieldOfRecordClean(record, 1);
      if |parts| > 2 {
        FieldOfRecordClean(record, 2);
      } else {
        assert !OccursAt("", RecordSeparator, 0);
        assert !OccursAt("", FieldSeparator, 0);
      }
    }
  }

  /** The accounts of a list of records, in record order, records without a field separator dropped. */
  function ParseRecords(records: seq<string>): seq<Account>
  {
    if records == [] then [] else ParseRecords(records[..|records| - 1]) + RecordAccounts(records[|records| - 1])
  }

  /** The accounts one record contributes: one or none. */
  function RecordAccounts(record: string): seq<Account>
  {
    match ParseRecord(record)
    case Some(a) => [a]
    case None => []
  }

  /** Records without `&` yield accounts whose every field is clean. */
  lemma {:induction false} ParseRecordsClean(records: seq<string>)
    requires forall k :: 0 <= k < |records| ==> !Contains(records[k], RecordSeparator)
    ensures var r := ParseRecords(records);
      forall k :: 0 <= k < |r| ==> CleanField(r[k].username) && CleanField(r[k].password) && CleanField(r[k].totpSecret)
    decreases |records|
  {
    if records != [] {
      var n := |records|;
      var init := records[..n - 1];
      assert forall k :: 0 <= k < |init| ==> init[k] == records[k];
      ParseRecordsClean(init);
      ParseRecordClean(records[n - 1]);
      assert ParseRecords(records) == ParseRecords(init) + RecordAccounts(records[n - 1]);
    }
  }

  /** The `&`-separated records of the stripped environment string ("" gives none). */
  function Records(env: string): (r: seq<string>)
    ensures forall k :: 0 <= k < |r| ==> !Contains(r[k], RecordSeparator)
  {
    var e := Strip(env);
    if e == "" then [] else SplitPiecesFree(e, RecordSeparator); Split(e, RecordSeparator)
  }

  /** The accounts the environment string `CLAW_ACCOUNTS` yields. */
  function ParsedAccounts(env: string): seq<Account>
  {
    ParseRecords(Records(env))
  }

  /** Every parsed account has stripped fields free of both separators. */
  lemma ParsedAccountsClean(env: string)
    ensures var r := ParsedAccounts(env);
      forall k :: 0 <= k < |r| ==> CleanField(r[k].username) && CleanField(r[k].password) && CleanField(r[k].totpSecret)
  {
    var rs := Records(env);
    assert forall k :: 0 <= k < |rs| ==> !Contains(rs[k], RecordSeparator);
    ParseRecordsClean(rs);
    assert ParsedAccounts(env) == ParseRecords(rs);
  }

  /** The loop of `load_accounts_from_env` over the `&`-separated records. */
  method ParseEach(records: seq<string>) returns (accounts: seq<Account>)
    ensures accounts == ParseRecords(records)
  {
    accounts := [];
    for i := 0 to |records|
      invariant accounts == ParseRecords(records[..i])
    {
      ParseRecordsPrefix(records, i);
      var parsed := ParseRecord(records[i]);
      if parsed.Some? {
        accounts := accounts + [parsed.value];
      }
    }
    assert records[..|records|] == records;
  }

  /** One more record of the list adds that record's accounts. */
  lemma {:induction false} ParseRecordsPrefix(records: seq<string>, i: nat)
    requires i < |records|
    ensures ParseRecords(records[..i + 1]) == ParseRecords(records[..i]) + RecordAccounts(records[i])
  {
    assert records[..i + 1][..i] == records[..i];
  }

  /**
    `load_accounts_from_env`: the parsed accounts, or the in-source `fallback`
    list when parsing yields none.
  */
  method LoadAccountsFromEnv(env: string, fallback: seq<Account>) returns (accounts: seq<Account>)
    ensures ParsedAccounts(env) != [] ==> accounts == ParsedAccounts(env)
    ensures ParsedAccounts(env) == [] ==> accounts == fallback
  {
    accounts := [];
    var envAccounts := Strip(env);
    if envAccounts != "" {
      accounts := ParseEach(Split(envAccounts, RecordSeparator));
    }
    if accounts == [] && fallback != [] {
      accounts := fallback;
    }
  }

  // ---------------------------------------------------------------------------
  // The inverse: writing accounts in the `CLAW_ACCOUNTS` format

  /** An account that can be written in the record format and read back unchanged. */
  predicate Writable(a: Account) {
    && CleanField(a.username) && CleanField(a.password) && CleanField(a.totpSecret)
    && (a.username == [] || a.username[|a.username| - 1] != '-')
    && (a.password == [] || a.password[|a.password| - 1] != '-')
  }

  /** `user----password----secret`. */
  function FormatRecord(a: Account): string {
    a.username + FieldSeparator + a.password + FieldSeparator + a.totpSecret
  }

  /** Records joined with `&`. */
  function FormatAccounts(accounts: seq<Account>): string {
    Join(FormatRecords(accounts), RecordSeparator)
  }

  /** The field separator is one character repeated. */
  lemma FieldSeparatorRepeats()
    ensures |FieldSeparator| > 0 && forall k :: 0 <= k < |FieldSeparator| ==> FieldSeparator[k] == '-'
  {
  }

  /** A written record splits back into its three fields. */
  lemma {:induction false} FormatRecordFields(a: Account)
    requires Writable(a)
    ensures Split(FormatRecord(a), FieldSeparator) == [a.username, a.password, a.totpSecret]
  {
    var u, p, t, sep := a.username, a.password, a.totpSecret, FieldSeparator;
    WritableFieldsSplitCleanly(a);
    SplitNone(t, sep);
    SplitCons(p, sep, t);
    FormatRecordShape(a);
    SplitCons(u, sep, p + sep + t);
  }

  /** A written record, grouped as its first field and the rest, splits the same way. */
  lemma FormatRecordShape(a: Account)
    ensures var sep := FieldSeparator;
      Split(FormatRecord(a), sep) == Split(a.username + sep + (a.password + sep + a.totpSecret), sep)
  {
    var u, p, t, sep := a.username, a.password, a.totpSecret, FieldSeparator;
    assert FormatRecord(a) == u + sep + (p + sep + t);
  }

  /** A written record is non-empty and has no whitespace at either end. */
  lemma {:induction false} FormatRecordStripped(a: Account)
    requires Writable(a)
    ensures IsStripped(FormatRecord(a)) && |FormatRecord(a)| > 0
  {
    var r := FormatRecord(a);
    var u, t := a.username, a.totpSecret;
    assert r == u + (FieldSeparator + a.password + FieldSeparator + t);
    assert r == (u + FieldSeparator + a.password + FieldSeparator) + t;
    assert r[0] == (if u == [] then '-' else u[0]);
    assert r[|r| - 1] == (if t == [] then '-' else t[|t| - 1]);
  }

  /** A written record holds no `&`. */
  lemma {:induction false} FormatRecordNoAmp(a: Account)
    requires Writable(a)
    ensures !Contains(FormatRecord(a), RecordSeparator)
  {
    NoCharIffAbsent(a.username, '&');
    NoCharIffAbsent(a.password, '&');
    NoCharIffAbsent(a.totpSecret, '&');
    NoCharIffAbsent(FormatRecord(a), '&');
  }

  /** Parsing a written record gives back the account. */
  lemma {:induction false} ParseFormatRecord(a: Account)
    requires Writable(a)
    ensures RecordAccounts(FormatRecord(a)) == [a]
  {
    FormatRecordStripped(a);
    FormatRecordFields(a);
    var parts := Split(Strip(FormatRecord(a)), FieldSeparator);
    assert parts == [a.username, a.password, a.totpSecret];
  }

  /** A record with no whitespace at either end is split as it is. */
  lemma {:induction false} ParseStrippedRecord(record: string)
    requires IsStripped(record)
    ensures var parts := Split(record, FieldSeparator);
      ParseRecord(record) ==
        if |parts| >= 2 then Some(Account(Strip(parts[0]), Strip(parts[1]), if |parts| > 2 then Strip(parts[2]) else ""))
        else None
  {
    assert Strip(record) == record;
  }

  /** `user----password` splits into its two fields and has no whitespace at either end. */
  lemma {:induction false} TwoFieldSplit(u: string, p: string)
    requires CleanField(u) && CleanField(p) && (u == [] || u[|u| - 1] != '-')
    ensures Split(u + FieldSeparator + p, FieldSeparator) == [u, p]
    ensures IsStripped(u + FieldSeparator + p)
  {
    var sep := FieldSeparator;
    FieldSeparatorRepeats();
    CleanRepeated(u, sep);
    SplitNone(p, sep);
    SplitCons(u, sep, p);
    StrippedConcat(u, sep);
    StrippedConcat(u + sep, p);
  }

  /** A record of two fields, `user----password`, gives that account with no TOTP secret. */
  lemma {:induction false} ParseTwoFieldRecord(u: string, p: string)
    requires CleanField(u) && CleanField(p) && (u == [] || u[|u| - 1] != '-')
    ensures ParseRecord(u + FieldSeparator + p) == Some(Account(u, p, ""))
  {
    TwoFieldSplit(u, p);
    ParseStrippedRecord(u + FieldSeparator + p);
  }

  /** A written record followed by more fields, regrouped field by field, splits the same way. */
  lemma {:induction false} ExtraFieldsShape(a: Account, extra: string)
    ensures var sep := FieldSeparator;
      Split(FormatRecord(a) + sep + extra, sep) ==
        Split(a.username + sep + (a.password + sep + (a.totpSecret + sep + extra)), sep)
  {
    var u, p, t, sep := a.username, a.password, a.totpSecret, FieldSeparator;
    var pt := p + sep + t;
    assert FormatRecord(a) == u + sep + pt;
    assert pt + sep + extra == p + sep + (t + sep + extra);
    assert FormatRecord(a) + sep + extra == u + sep + (p + sep + (t + sep + extra));
  }

  /** Each field of a writable account splits off cleanly at `----` (the last one when it does not end in `-`). */
  lemma WritableFieldsSplitCleanly(a: Account)
    requires Writable(a)
    ensures var sep := FieldSeparator;
      && SplitsCleanly(a.username, sep) && SplitsCleanly(a.password, sep)
      && (a.totpSecret == [] || a.totpSecret[|a.totpSecret| - 1] != '-' ==> SplitsCleanly(a.totpSecret, sep))
  {
    FieldSeparatorRepeats();
    CleanRepeated(a.username, FieldSeparator);
    CleanRepeated(a.password, FieldSeparator);
    if a.totpSecret == [] || a.totpSecret[|a.totpSecret| - 1] != '-' {
      CleanRepeated(a.totpSecret, FieldSeparator);
    }
  }

  /** A written record followed by more fields splits into the account's fields first. */
  lemma {:induction false} ExtraFieldsSplit(a: Account, extra: string)
    requires Writable(a) && (a.totpSecret == [] || a.totpSecret[|a.totpSecret| - 1] != '-')
    ensures var parts := Split(FormatRecord(a) + FieldSeparator + extra, FieldSeparator);
      |parts| >= 3 && parts[0] == a.username && parts[1] == a.password && parts[2] == a.totpSecret
  {
    WritableFieldsSplitCleanly(a);
    SplitThreeCons(a.username, a.password, a.totpSecret, FieldSeparator, extra);
    ExtraFieldsShape(a, extra);
  }

  /** A written record followed by stripped fields has no whitespace at either end. */
  lemma {:induction false} ExtraFieldsStripped(a: Account, extra: string)
    requires Writable(a) && IsStripped(extra)
    ensures IsStripped(FormatRecord(a) + FieldSeparator + extra)
  {
    var sep := FieldSeparator;
    FormatRecordStripped(a);
    StrippedConcat(sep, extra);
    StrippedConcat(FormatRecord(a), sep + extra);
    assert FormatRecord(a) + sep + extra == FormatRecord(a) + (sep + extra);
  }

  /** Fields after the third are ignored: a written record followed by more fields gives its account. */
  lemma {:induction false} ParseRecordIgnoresExtraFields(a: Account, extra: string)
    requires Writable(a) && (a.totpSecret == [] || a.totpSecret[|a.totpSecret| - 1] != '-')
    requires IsStripped(extra)
    ensures ParseRecord(FormatRecord(a) + FieldSeparator + extra) == Some(a)
  {
    var record := FormatRecord(a) + FieldSeparator + extra;
    ExtraFieldsSplit(a, extra);
    ExtraFieldsStripped(a, extra);
    ParseStrippedRecord(record);
  }

  /** A `&`-join of stripped, non-empty records is stripped and non-empty. */
  lemma {:induction false} JoinStripped(records: seq<string>)
    requires |records| >= 1
    requires forall k :: 0 <= k < |records| ==> IsStripped(records[k]) && |records[k]| > 0
    ensures IsStripped(Join(records, RecordSeparator)) && |Join(records, RecordSeparator)| > 0
    decreases |records|
  {
    if |records| > 1 {
      JoinStripped(records[1..]);
      var j := Join(records, RecordSeparator);
      var rest := Join(records[1..], RecordSeparator);
      assert j == records[0] + RecordSeparator + rest;
      assert j[0] == records[0][0];
      assert j[|j| - 1] == rest[|rest| - 1];
    }
  }

  /** The written records of a list of accounts. */
  function FormatRecords(accounts: seq<Account>): seq<string>
  {
    if accounts == [] then [] else FormatRecords(accounts[..|accounts| - 1]) + [FormatRecord(accounts[|accounts| - 1])]
  }

  /** Appending one record appends that record's accounts. */
  lemma {:induction false} ParseRecordsSnoc(records: seq<string>, record: string)
    ensures ParseRecords(records + [record]) == ParseRecords(records) + RecordAccounts(record)
  {
    var all := records + [record];
    assert all[..|all| - 1] == records;
    assert all[|all| - 1] == record;
  }

  /** Parsing a list of written records gives back the accounts. */
  lemma {:induction false} ParseFormattedRecords(accounts: seq<Account>)
    requires forall k :: 0 <= k < |accounts| ==> Writable(accounts[k])
    ensures ParseRecords(FormatRecords(accounts)) == accounts
    decreases |accounts|
  {
    if accounts != [] {
      var n := |accounts|;
      var init := accounts[..n - 1];
      var last := accounts[n - 1];
      assert forall k :: 0 <= k < |init| ==> init[k] == accounts[k];
      ParseFormattedRecords(init);
      ParseRecordsSnoc(FormatRecords(init), FormatRecord(last));
      ParseFormatRecord(last);
      assert accounts == init + [last];
    }
  }

  /** The k-th written record is the k-th account written. */
  lemma {:induction false} FormatRecordsAt(accounts: seq<Account>)
    ensures |FormatRecords(accounts)| == |accounts|
    ensures forall k :: 0 <= k < |accounts| ==> FormatRecords(accounts)[k] == FormatRecord(accounts[k])
    decreases |accounts|
  {
    if accounts != [] {
      var init := accounts[..|accounts| - 1];
      FormatRecordsAt(init);
      assert forall k :: 0 <= k < |init| ==> init[k] == accounts[k];
    }
  }

  /** The written records are stripped, non-empty, free of `&`, and so split off cleanly at `&`. */
  lemma {:induction false} FormattedRecordsClean(accounts: seq<Account>)
    requires forall k :: 0 <= k < |accounts| ==> Writable(accounts[k])
    ensures var records := FormatRecords(accounts);
      forall k :: 0 <= k < |records| ==>
        IsStripped(records[k]) && |records[k]| > 0 && !Contains(records[k], RecordSeparator) && SplitsCleanly(records[k], RecordSeparator)
  {
    var records := FormatRecords(accounts);
    FormatRecordsAt(accounts);
    forall k | 0 <= k < |records|
      ensures IsStripped(records[k]) && |records[k]| > 0 && !Contains(records[k], RecordSeparator) && SplitsCleanly(records[k], RecordSeparator)
    {
      FormatRecordStripped(accounts[k]);
      FormatRecordNoAmp(accounts[k]);
      CleanSingle(records[k], '&');
    }
  }

  /**
    Round trip: writing well-formed accounts in the `CLAW_ACCOUNTS` format and
    parsing the text gives back the same accounts in the same order.
  */
  lemma {:induction false} ParseFormatRoundTrip(accounts: seq<Account>)
    requires forall k :: 0 <= k < |accounts| ==> Writable(accounts[k])
    ensures ParsedAccounts(FormatAccounts(accounts)) == accounts
  {
    var records := FormatRecords(accounts);
    var env := FormatAccounts(accounts);
    ParseFormattedRecords(accounts);
    FormatRecordsAt(accounts);
    if accounts != [] {
      FormattedRecordsClean(accounts);
      JoinStripped(records);
      SplitJoin(records, RecordSeparator);
      assert Strip(env) == env;
      assert Records(env) == records;
    }
  }

  /**
    With well-formed accounts written to the environment string, loading returns
    them when there is at least one, and the in-source fallback list otherwise.
  */
  lemma {:induction false} LoadFormattedAccounts(accounts: seq<Account>, fallback: seq<Account>)
    requires forall k :: 0 <= k < |accounts| ==> Writable(accounts[k])
    ensures var parsed := ParsedAccounts(FormatAccounts(accounts));
      (if parsed == [] then fallback else parsed) == (if accounts == [] then fallback else accounts)
  {
    ParseFormatRoundTrip(accounts);
  }

  /** A kept record contributes exactly one account, a dropped one none, and order is kept. */
  lemma {:induction false} ParseRecordsAppend(a: seq<string>, b: seq<string>)
    ensures ParseRecords(a + b) == ParseRecords(a) + ParseRecords(b)
    decreases |b|
  {
    if b == [] {
      assert a + b == a;
    } else {
      var init, last := b[..|b| - 1], b[|b| - 1];
      assert b == init + [last];
      assert a + b == (a + init) + [last];
      ParseRecordsAppend(a, init);
      ParseRecordsSnoc(a + init, last);
      ParseRecordsSnoc(init, last);
    }
  }
}
