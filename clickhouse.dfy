/**
 * The ClickHouse client as the analyzer sees it (internal/clickhouse/client.go):
 * two queries, one for per-template counts in a time window and one for the
 * representative logs of some templates. The database itself is abstract: a
 * `Store` answers each query with rows or a driver error, and the client
 * methods add what the Go code adds on top of the driver, namely the
 * rewriting of a missing-table error and the empty-input guard.
 */
module ClickHouse {
  import opened Wrappers
  import opened Strings
  import opened Scoring

  /** The four fields that select one panel's logs. */
  datatype Identity = Identity(org: string, dashboard: string, panelTitle: string, metricName: string)

  /** A time window, in nanoseconds; the counts query is half-open. */
  datatype Window = Window(start: int, end: int)

  /** A log timestamp falls in a window: `timestamp >= start AND timestamp < end`. */
  predicate InWindow(timestamp: int, w: Window) {
    w.start <= timestamp < w.end
  }

  /** A query the client sends to the database. */
  datatype Query = CountsQuery(window: Window) | RepresentativesQuery(templateIds: seq<string>)

  /**
   * What the driver makes of one query: the rows it read, the error of
   * `QueryContext` itself, or an error met while reading the rows (from
   * `rows.Scan` or `rows.Err()`).
   */
  datatype DbAnswer<T> = Rows(rows: T) | QueryError(error: string) | ReadError(error: string)

  /** The database: what each query returns. */
  datatype Store = Store(
    counts: (Identity, Window) -> DbAnswer<CountMap>,
    representatives: (Identity, seq<string>) -> DbAnswer<map<string, seq<string>>>)

  const CountsTable := "log_template_ids"
  const RepresentativesTable := "log_template_representatives"

  /** The error text that replaces a driver error mentioning UNKNOWN_TABLE. */
  function MissingTableMessage(table: string): (msg: string)
    ensures HasPrefix(msg, "table '")
  {
    "table '" + table + "' " + "does not exist" + ". Please restart the service to auto-create tables"
  }

  /** The missing-table message names the table and says it does not exist. */
  lemma MissingTableMessageSaysDoesNotExist(table: string)
    ensures OccursAt(MissingTableMessage(table), table, 7)
    ensures OccursAt(MissingTableMessage(table), "does not exist", |table| + 9)
    ensures IsSubstring("does not exist", MissingTableMessage(table))
  {
    var msg := MissingTableMessage(table);
    var head := "table '" + table + "' ";
    var phrase := "does not exist";
    assert msg == head + phrase + ". Please restart the service to auto-create tables";
    assert msg[7..7 + |table|] == table;
    assert msg[|head|..|head| + |phrase|] == phrase;
    assert OccursAt(msg, phrase, |head|);
  }

  /** The error a client method reports for a driver error on `table`. */
  function ReportedError(err: string, table: string): (reported: string)
    ensures IsSubstring("UNKNOWN_TABLE", err) ==> reported == MissingTableMessage(table)
    ensures !IsSubstring("UNKNOWN_TABLE", err) ==> reported == err
  {
    if IsSubstring("UNKNOWN_TABLE", err) then MissingTableMessage(table) else err
  }

  /**
   * What a client method returns for the driver's answer about `table`:
   * only a failed query has its error rewritten; a read error is returned
   * as the driver gave it.
   */
  function Reported<T>(answer: DbAnswer<T>, table: string): Result<T, string> {
    match answer
    case Rows(rows) => Success(rows)
    case QueryError(err) => Failure(ReportedError(err, table))
    case ReadError(err) => Failure(err)
  }

  /** What `GetTemplateCounts` returns for a window. */
  function CountsResult(db: Store, id: Identity, w: Window): Result<CountMap, string> {
    Reported(db.counts(id, w), CountsTable)
  }

  /** What `GetRepresentativeLogs` returns for some template IDs. */
  function RepresentativesResult(db: Store, id: Identity, templateIds: seq<string>)
    : Result<map<string, seq<string>>, string>
  {
    if |templateIds| == 0 then Success(map[])
    else Reported(db.representatives(id, templateIds), RepresentativesTable)
  }

  /**
   * `GetTemplateCounts`: one counts query; a failed query that mentions
   * UNKNOWN_TABLE is reported as the missing-table message, any other
   * error as it came.
   */
  method GetTemplateCounts(db: Store, id: Identity, w: Window)
    returns (r: Result<CountMap, string>, queries: seq<Query>)
    ensures queries == [CountsQuery(w)]
    ensures db.counts(id, w).Rows? <==> r.Success?
    ensures db.counts(id, w).Rows? ==> r.value == db.counts(id, w).rows
    ensures db.counts(id, w).QueryError? && IsSubstring("UNKNOWN_TABLE", db.counts(id, w).error)
            ==> r == Failure(MissingTableMessage(CountsTable))
    ensures db.counts(id, w).ReadError? ==> r == Failure(db.counts(id, w).error)
    ensures r == CountsResult(db, id, w)
  {
    queries := [CountsQuery(w)];
    var answer := db.counts(id, w);
    if answer.QueryError? {
      var unknown := ContainsError(Some(answer.error), "UNKNOWN_TABLE");
      if unknown {
        return Failure(MissingTableMessage(CountsTable)), queries;
      }
      return Failure(answer.error), queries;
    }
    if answer.ReadError? {
      return Failure(answer.error), queries;
    }
    r := Success(answer.rows);
  }

  /**
   * `GetRepresentativeLogs`: an empty ID list is answered with an empty map
   * and no query; otherwise one query, whose failure has the missing-table
   * rewrite and whose read errors are returned as they came.
   */
  method GetRepresentativeLogs(db: Store, id: Identity, templateIds: seq<string>)
    returns (r: Result<map<string, seq<string>>, string>, queries: seq<Query>)
    ensures |templateIds| == 0 ==> r == Success(map[]) && queries == []
    ensures |templateIds| > 0 ==> queries == [RepresentativesQuery(templateIds)]
    ensures var answer := db.representatives(id, templateIds);
            |templateIds| > 0 ==>
              && (answer.Rows? <==> r.Success?)
              && (answer.Rows? ==> r.value == answer.rows)
              && (answer.QueryError? && IsSubstring("UNKNOWN_TABLE", answer.error)
                  ==> r == Failure(MissingTableMessage(RepresentativesTable)))
              && (answer.ReadError? ==> r == Failure(answer.error))
    ensures r == RepresentativesResult(db, id, templateIds)
  {
    if |templateIds| == 0 {
      return Success(map[]), [];
    }
    queries := [RepresentativesQuery(templateIds)];
    var answer := db.representatives(id, templateIds);
    if answer.QueryError? {
      var unknown := ContainsError(Some(answer.error), "UNKNOWN_TABLE");
      if unknown {
        return Failure(MissingTableMessage(RepresentativesTable)), queries;
      }
      return Failure(answer.error), queries;
    }
    if answer.ReadError? {
      return Failure(answer.error), queries;
    }
    r := Success(answer.rows);
  }
}
