/**
 * The credential rotator `getNextApiKeyFromDb` over the table dbo."APIKeyManagement": among active rows,
 * select the one with the smallest "Usage" (null first, ties by "Email"), add one to its usage, and return it
 * as read. The whole transaction is one atomic step here.
 */
module ApiKeys {
  import opened Wrappers

  /** A row of dbo."APIKeyManagement". */
  datatype KeyRow = KeyRow(email: string, name: string, apiKey: string, usage: Option<int>, active: bool)

  /** The selected columns "Email", "Name", "APIKey", "Usage". */
  datatype SelectedKey = SelectedKey(email: string, name: string, apiKey: string, usage: Option<int>)

  /** The message thrown when no row is active. */
  const NO_ACTIVE_KEYS := "No active API keys found in dbo.\"APIKeyManagement\""

  /** The TypeError thrown by `row.Email` when `row` is undefined. */
  const ROW_UNDEFINED := "Cannot read properties of undefined (reading 'Email')"

  function Selected(row: KeyRow): SelectedKey {
    SelectedKey(row.email, row.name, row.apiKey, row.usage)
  }

  /** `"Usage" ASC NULLS FIRST`: null before every number, numbers ascending. */
  predicate UsageBefore(a: Option<int>, b: Option<int>) {
    (a.None? && b.Some?) || (a.Some? && b.Some? && a.value < b.value)
  }

  /** `"Email" ASC`, as lexicographic order of code points. */
  predicate StrLess(a: string, b: string)
    decreases |a|
  {
    if |a| == 0 then |b| > 0
    else if |b| == 0 then false
    else if a[0] != b[0] then a[0] < b[0]
    else StrLess(a[1..], b[1..])
  }

  lemma {:induction false} StrLessIrreflexive(a: string)
    ensures !StrLess(a, a)
    decreases |a|
  {
    if |a| > 0 {
      StrLessIrreflexive(a[1..]);
    }
  }

  lemma {:induction false} StrLessTransitive(a: string, b: string, c: string)
    requires StrLess(a, b) && StrLess(b, c)
    ensures StrLess(a, c)
    decreases |a|
  {
    if |a| > 0 && |b| > 0 && |c| > 0 && a[0] == b[0] && b[0] == c[0] {
      StrLessTransitive(a[1..], b[1..], c[1..]);
    }
  }

  /** `ORDER BY "Usage" ASC NULLS FIRST, "Email" ASC`: `a` is returned before `b`. */
  predicate RanksBefore(a: KeyRow, b: KeyRow) {
    UsageBefore(a.usage, b.usage) || (a.usage == b.usage && StrLess(a.email, b.email))
  }

  lemma RanksBeforeStrict(a: KeyRow, b: KeyRow, c: KeyRow)
    ensures !RanksBefore(a, a)
    ensures RanksBefore(a, b) && RanksBefore(b, c) ==> RanksBefore(a, c)
  {
    StrLessIrreflexive(a.email);
    if RanksBefore(a, b) && RanksBefore(b, c) && a.usage == b.usage && b.usage == c.usage {
      StrLessTransitive(a.email, b.email, c.email);
    }
  }

  predicate HasActive(rows: seq<KeyRow>) {
    exists i :: 0 <= i < |rows| && rows[i].active
  }

  /** `rows[k]` is the row `WHERE "Active" = true ORDER BY ... LIMIT 1` returns. */
  predicate IsLeastUsed(rows: seq<KeyRow>, k: int) {
    && 0 <= k < |rows|
    && rows[k].active
    && forall j :: 0 <= j < |rows| && rows[j].active ==> !RanksBefore(rows[j], rows[k])
  }

  /** The SELECT: the position of the first active row that no active row ranks before, or -1. */
  method SelectLeastUsed(rows: seq<KeyRow>) returns (k: int)
    ensures k == -1 <==> !HasActive(rows)
    ensures k != -1 ==> IsLeastUsed(rows, k)
  {
    k := -1;
    for i := 0 to |rows|
      invariant -1 <= k < i || (k == -1 && i == 0)
      invariant k == -1 <==> forall j :: 0 <= j < i ==> !rows[j].active
      invariant k != -1 ==> rows[k].active && forall j :: 0 <= j < i && rows[j].active ==> !RanksBefore(rows[j], rows[k])
    {
      if rows[i].active && (k == -1 || RanksBefore(rows[i], rows[k])) {
        forall j | 0 <= j <= i && rows[j].active ensures !RanksBefore(rows[j], rows[i]) {
          RanksBeforeStrict(rows[j], rows[i], if k == -1 then rows[i] else rows[k]);
        }
        k := i;
      }
    }
  }

  /** The row the UPDATE touches: `WHERE "Email" = $1 AND "APIKey" = $2`. */
  predicate Matches(row: KeyRow, email: string, apiKey: string) {
    row.email == email && row.apiKey == apiKey
  }

  /** `COALESCE("Usage", 0)`. */
  function UsageOrZero(u: Option<int>): int {
    if u.Some? then u.value else 0
  }

  /** The UPDATE: every matching row gets `COALESCE("Usage", 0) + 1`; all other rows and columns stay. */
  function Bumped(rows: seq<KeyRow>, email: string, apiKey: string): (r: seq<KeyRow>)
    ensures |r| == |rows|
    ensures forall i :: 0 <= i < |rows| && !Matches(rows[i], email, apiKey) ==> r[i] == rows[i]
    ensures forall i :: 0 <= i < |rows| && Matches(rows[i], email, apiKey) ==>
      r[i] == rows[i].(usage := Some(UsageOrZero(rows[i].usage) + 1))
  {
    if |rows| == 0 then []
    else
      var row := rows[0];
      [if Matches(row, email, apiKey) then row.(usage := Some(UsageOrZero(row.usage) + 1)) else row]
        + Bumped(rows[1..], email, apiKey)
  }

  /** The sum of all usages, null counted as 0. */
  function TotalUsage(rows: seq<KeyRow>): int {
    if |rows| == 0 then 0 else UsageOrZero(rows[0].usage) + TotalUsage(rows[1..])
  }

  /** The number of rows the UPDATE touches. */
  function MatchCount(rows: seq<KeyRow>, email: string, apiKey: string): nat {
    if |rows| == 0 then 0 else (if Matches(rows[0], email, apiKey) then 1 else 0) + MatchCount(rows[1..], email, apiKey)
  }

  /** The UPDATE raises the total usage by the number of rows it touches. */
  lemma {:induction false} BumpedTotal(rows: seq<KeyRow>, email: string, apiKey: string)
    ensures TotalUsage(Bumped(rows, email, apiKey)) == TotalUsage(rows) + MatchCount(rows, email, apiKey)
    decreases |rows|
  {
    if |rows| > 0 {
      var b := Bumped(rows, email, apiKey);
      assert b[1..] == Bumped(rows[1..], email, apiKey);
      BumpedTotal(rows[1..], email, apiKey);
    }
  }

  /** No two rows share both "Email" and "APIKey". */
  predicate DistinctKeys(rows: seq<KeyRow>) {
    forall i, j :: 0 <= i < j < |rows| ==> !Matches(rows[j], rows[i].email, rows[i].apiKey)
  }

  lemma {:induction false} NoMatchCount(rows: seq<KeyRow>, email: string, apiKey: string)
    requires forall i :: 0 <= i < |rows| ==> !Matches(rows[i], email, apiKey)
    ensures MatchCount(rows, email, apiKey) == 0
    decreases |rows|
  {
    if |rows| > 0 {
      NoMatchCount(rows[1..], email, apiKey);
    }
  }

  /** With distinct (Email, APIKey) pairs the UPDATE touches exactly the selected row. */
  lemma {:induction false} DistinctKeysMatchOnce(rows: seq<KeyRow>, k: int)
    requires DistinctKeys(rows) && 0 <= k < |rows|
    ensures MatchCount(rows, rows[k].email, rows[k].apiKey) == 1
    decreases |rows|
  {
    var e, a := rows[k].email, rows[k].apiKey;
    if k == 0 {
      NoMatchCount(rows[1..], e, a);
    } else {
      assert DistinctKeys(rows[1..]);
      assert rows[1..][k - 1] == rows[k];
      DistinctKeysMatchOnce(rows[1..], k - 1);
      assert !Matches(rows[k], rows[0].email, rows[0].apiKey);
    }
  }

  /** A successful acquisition on a table with distinct keys raises the total usage by exactly one. */
  lemma AcquisitionAddsOne(rows: seq<KeyRow>, k: int)
    requires DistinctKeys(rows) && IsLeastUsed(rows, k)
    ensures TotalUsage(Bumped(rows, rows[k].email, rows[k].apiKey)) == TotalUsage(rows) + 1
  {
    BumpedTotal(rows, rows[k].email, rows[k].apiKey);
    DistinctKeysMatchOnce(rows, k);
  }

  /** The table, held in memory. */
  class KeyTable {
    var rows: seq<KeyRow>

    constructor(rows0: seq<KeyRow>)
      ensures rows == rows0
    {
      rows := rows0;
    }

    /** index.js `getNextApiKeyFromDb`: the selected row, read before the increment, or the error and no change. */
    method AcquireNext() returns (r: Result<SelectedKey, string>, ghost k: int)
      modifies this
      ensures !HasActive(old(rows)) ==> r == Failure(NO_ACTIVE_KEYS) && rows == old(rows)
      ensures HasActive(old(rows)) ==>
        && IsLeastUsed(old(rows), k)
        && r == Success(Selected(old(rows)[k]))
        && rows == Bumped(old(rows), old(rows)[k].email, old(rows)[k].apiKey)
    {
      var i := SelectLeastUsed(rows);
      k := i;
      if i == -1 {
        return Failure(NO_ACTIVE_KEYS), k;
      }
      var row := Selected(rows[i]);
      rows := Bumped(rows, row.email, row.apiKey);
      r := Success(row);
    }

    /**
     * controller.js `getNextApiKeyFromDb`: the row is read as `selectRes[0]`, which is undefined, so the
     * UPDATE's argument list throws and the transaction rolls back. It never succeeds and never changes a row.
     */
    method AcquireNextAsInController() returns (r: Result<SelectedKey, string>)
      ensures r == Failure(if HasActive(rows) then ROW_UNDEFINED else NO_ACTIVE_KEYS)
    {
      var k := SelectLeastUsed(rows);
      if k == -1 {
        return Failure(NO_ACTIVE_KEYS);
      }
      // `selectRes[0]` is undefined: reading `.Email` of it throws.
      r := Failure(ROW_UNDEFINED);
    }
  }
}
